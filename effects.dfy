/**
 * What the two blocks of the simulation stage do, as functions of the
 * configuration, the cell and what the generator and the library supply:
 * the files they write, the simulations they generate and the draws they
 * take from the generator. Both drivers, the package's and the older
 * script's, run the same blocks.
 */
module Effects {
  import opened Common
  import opened Dicts
  import opened Naming
  import opened Colors
  import opened Randomness
  import opened Cells
  import opened Selection
  import opened Simulations
  import opened Manifests
  import opened Outputs

  // ---- what the generator and the library are asked to supply ----

  /** `inputPicks` is a valid choice for `random.sample(segments, num_inputs)` whenever that call succeeds. */
  predicate InputChoice(config: Config, cell: Cell, picks: seq<nat>)
  {
    0 <= config.numInputs <= |cell.segments| ==> IsSampleChoice(picks, |cell.segments|, config.numInputs)
  }

  /** `range(num_iterations)` runs this many times. */
  function Iterations(config: Config): nat
  {
    if config.numIterations < 0 then 0 else config.numIterations
  }

  /** One seed in `[0, 99999]` and one saved file per iteration. */
  predicate IterationChoice(config: Config, seeds: seq<int>, files: seq<string>)
  {
    |seeds| == Iterations(config) && |files| == |seeds| && forall i :: 0 <= i < |seeds| ==> 0 <= seeds[i] <= 99999
  }

  // ---- the effects of the two blocks ----

  /** The fi block writes its manifest, empty or not, whenever `fi_curves` is set. */
  function FiSaved(config: Config, sweep: seq<real>, files: seq<string>): seq<JsonFile>
    requires |files| == |sweep|
  {
    if config.fiCurves then [FiSimsJson(FiManifest(config.currents, sweep, files))] else []
  }

  /** The fi block simulates the sweep only when no explicit currents are listed. */
  function FiSims(config: Config, ctx: SimContext, sweep: seq<real>, files: seq<string>): seq<Simulation>
    requires |files| == |sweep|
  {
    if config.fiCurves && |config.currents| == 0 then StepCurrentSims(ctx, sweep, files) else []
  }

  /** The Poisson block writes the input marks and then its manifest, unless sampling the inputs raised. */
  function PoissonSaved(config: Config, cell: Cell, picks: seq<nat>, files: seq<string>): seq<JsonFile>
    requires InputChoice(config, cell, picks)
  {
    var s := SampleOf(cell.segments, config.numInputs, picks);
    if config.poissonInputs && s.Ok? then
      [InputMarksJson(PutAll(Empty(), Marks(s.value, config.segmentMarkerSize, config.numInputs))), PoissonSimsJson(PoissonManifest(files))]
    else []
  }

  /** The Poisson block generates one simulation per iteration, all with counter 0 and the sampled inputs. */
  function PoissonRunSims(config: Config, cell: Cell, ctx: SimContext, picks: seq<nat>, seeds: seq<int>, files: seq<string>): seq<Simulation>
    requires InputChoice(config, cell, picks) && |files| == |seeds|
  {
    var s := SampleOf(cell.segments, config.numInputs, picks);
    if config.poissonInputs && s.Ok? then PoissonSims(ctx, 0, seeds, s.value, files) else []
  }

  /** The Poisson block samples the inputs once, then draws one seed per iteration. */
  function PoissonDraws(config: Config, cell: Cell, picks: seq<nat>): seq<Draw>
    requires InputChoice(config, cell, picks)
  {
    var s := SampleOf(cell.segments, config.numInputs, picks);
    if config.poissonInputs && s.Ok? then [Sampled(|cell.segments|, config.numInputs)] + IntDraws(Iterations(config), 0, 99999) else []
  }

  // ---- the fields the two blocks leave behind ----

  /** `recorder`, `sim_counter`, `poisson_input_segments` and `input_segment_marks`, the fields the blocks assign. */
  datatype BlockFields = BlockFields(recorder: Dict<string, ManifestEntry>, simCounter: nat,
                                     inputs: seq<nat>, marks: Dict<nat, Marker>)

  /**
   * The fields after the two blocks, starting from `before`: the Poisson block,
   * when it runs, resets the counter and the manifest and, once the inputs are
   * sampled, keeps them with their marks and leaves its own manifest; otherwise
   * the fi block, when it runs, leaves its manifest and (when it sweeps) the
   * counter at the sweep's length.
   */
  function AfterBlocks(config: Config, cell: Cell, picks: seq<nat>, sweep: seq<real>, fiFiles: seq<string>,
                       poissonFiles: seq<string>, before: BlockFields): BlockFields
    requires InputChoice(config, cell, picks) && |fiFiles| == |sweep|
  {
    var fi := if config.fiCurves then
                before.(recorder := FiManifest(config.currents, sweep, fiFiles),
                        simCounter := if |config.currents| == 0 then |sweep| else before.simCounter)
              else before;
    var s := SampleOf(cell.segments, config.numInputs, picks);
    if !config.poissonInputs then fi
    else if s.Err? then fi.(recorder := Empty(), simCounter := 0)
    else BlockFields(PoissonManifest(poissonFiles), 0, s.value,
                     PutAll(Empty(), Marks(s.value, config.segmentMarkerSize, config.numInputs)))
  }

  /**
   * The manifest left in `recorder` after the blocks: with the Poisson block
   * run and its sample drawn, the single key `poisson_stim_sim_0` (none without
   * iterations) holding the last iteration's file; with only the fi block run,
   * the sweep's ids, or none when currents are listed; with neither, the old manifest.
   */
  lemma AfterBlocksManifest(config: Config, cell: Cell, picks: seq<nat>, sweep: seq<real>, fiFiles: seq<string>,
                            poissonFiles: seq<string>, before: BlockFields)
    requires InputChoice(config, cell, picks) && |fiFiles| == |sweep|
    ensures var after := AfterBlocks(config, cell, picks, sweep, fiFiles, poissonFiles, before);
            var s := SampleOf(cell.segments, config.numInputs, picks);
            (config.poissonInputs && s.Ok? ==>
               after.recorder.keys == (if |poissonFiles| == 0 then [] else [PoissonSimId(0)]) &&
               (|poissonFiles| > 0 ==> after.recorder.entries[PoissonSimId(0)] == PoissonEntry(poissonFiles[|poissonFiles| - 1]))) &&
            (config.poissonInputs && s.Err? ==> after.recorder == Empty()) &&
            (!config.poissonInputs && config.fiCurves ==>
               after.recorder.keys == (if |config.currents| == 0 then StepCurrentIds(|sweep|) else [])) &&
            (!config.poissonInputs && !config.fiCurves ==> after == before)
  {
    PoissonManifestCollapses(poissonFiles);
    if !config.poissonInputs && config.fiCurves {
      FiManifestKeys(config.currents, sweep, fiFiles);
    }
  }

  /** When the sample succeeds, the block's effects are those of one sample and one run of the loop. */
  lemma PoissonBlockOk(config: Config, cell: Cell, ctx: SimContext, picks: seq<nat>, seeds: seq<int>, files: seq<string>)
    requires config.poissonInputs && InputChoice(config, cell, picks) && |files| == |seeds|
    requires SampleOf(cell.segments, config.numInputs, picks).Ok?
    ensures var s := SampleOf(cell.segments, config.numInputs, picks).value;
            PoissonSaved(config, cell, picks, files) ==
              [InputMarksJson(PutAll(Empty(), Marks(s, config.segmentMarkerSize, config.numInputs))), PoissonSimsJson(PoissonManifest(files))] &&
            PoissonRunSims(config, cell, ctx, picks, seeds, files) == PoissonSims(ctx, 0, seeds, s, files) &&
            PoissonDraws(config, cell, picks) == [Sampled(|cell.segments|, config.numInputs)] + IntDraws(Iterations(config), 0, 99999)
  {
  }
}
