# NeuroMLCAP bookkeeping, modelled in Dafny

NeuroMLCAP, the NeuroML Cell Analysis Pipeline, takes a NeuroML cell model and prepares a set of simulations to analyse
it. Most of the pipeline is calls into pyNeuroML, libNeuroML and matplotlib. This project models the part the
pipeline computes itself, in its two drivers: the package's `neuromlcap/analysis/analysis.py` and the older
stand-alone `analysis.py`. Both define a `NeuroMLCAP` class whose fields are updated step by step. Each is modelled
as a Dafny class holding the fields the core reads and writes: `LegacyAnalysis.NeuroMLCAP` for the older file,
`Analysis.NeuroMLCAP` for the package. Against the source's fields:

- `cell` is `self.cell_obj`, the first cell of the document;
- `nml_doc`, `model_files` and the unused `self.cell` (always None) are not fields of the model;
- `saved` (the JSON files written), `simulations` (the simulations generated) and `rng` (the `random` module) are added.

The modelled parts are:

- **the table of segments to record from** (`recorded_segments`). It is an insertion-ordered dict from a segment key
  to a marker. The soma `"0"` comes first. Next comes the middle segment `segments[int(len(segments)/2)]` of each
  randomly sampled unbranched group. Last come the configured extra segments. Each assignment takes the next colour
  of a ramp of exactly `1 + len(sampled) + len(extras)` colours. The package can also resume an analysis, loading the
  stored table instead of sampling.
- **the simulation manifests** (`recorder`), built by the fi-curve loop and by the Poisson-input loop. The Poisson
  loop also builds the marks of the sampled input segments (`input_segment_marks`).
- **the names each generated simulation uses**:
  - the simulation id `step_current_sim_{k}` or `poisson_stim_sim_{k}`;
  - the generator ids `pg_{k}` and `pi_{k}_{ctr}`;
  - file names `{id}.net.nml` and `{id}.v.dat`;
  - one output column `v_cell_0_{s}` per recorded key, recording `{pop}/0/{cell}/{s}/v`;
  - the Poisson connections, numbered `ctr = 0..k-1` from generator instance `ctr` to each input segment.

How the model is represented:

- **Dicts.** A Python dict is `Dicts.Dict`: the key order plus a map. Assigning a new key appends it. Re-assigning a
  key replaces its value and keeps its position. `PutAll` performs a sequence of assignments.
- **The random generator.** `random` is a `RandomSource` object. It keeps a log of the calls that returned: seed,
  sample, randint (a `random.sample` that raises ValueError is not logged). Its outcomes (the positions `random.sample` picks, the integers `random.randint` draws) are
  parameters.
- **Colours.** A colour is its ramp position, `RampColor(index, points)`. `next(colors)` is `ColorIterator.Next`,
  whose precondition every call site proves, so the iterator is never exhausted.
- **Library results.** What the library computes comes in as parameters: the linspace of currents, and the names of
  the saved LEMS files.
- **Written files and generated simulations.** The JSON files written and the simulations generated are kept as logs
  on the driver object (`saved`, `simulations`).
- **Block specifications.** Each driver's methods are proved against specification functions (`NewTable`,
  `FiManifest`, `PoissonManifest`, `StepCurrentSims`, `PoissonSims`, and the block effects in `Effects`). The lemmas
  beside those functions state what the source promises about them.

The modules are:

- `Common`: errors, results, `Distinct`;
- `Dicts`;
- `Naming`: `str()` and the f-string names;
- `Colors`;
- `Randomness`;
- `Cells`: the configuration and the cell as read;
- `Selection`: the recording table and the input marks;
- `Simulations`: columns, connections, the two kinds of simulation;
- `Manifests`;
- `Outputs`: the JSON files;
- `Effects`: what each simulation block writes, generates and draws;
- `Analysis` and `LegacyAnalysis`: the two drivers.

## Model

| member | source | states |
|---|---|---|
| Naming.NatToString | neuromlcap/analysis/analysis.py:202 | `str(n)` of a segment id is a non-empty string of decimal digits, starting with `0` only for 0 |
| Naming.ParseNatToString | neuromlcap/analysis/analysis.py:202 | reading the numeral back gives the id: `int(str(n)) == n` |
| Naming.NatToStringInjective | neuromlcap/analysis/analysis.py:208 | different segment ids give different dict keys |
| Naming.StepCurrentSimIdInjective | neuromlcap/analysis/analysis.py:233 | `step_current_sim_{i}` and `step_current_sim_{j}` differ unless `i == j` |
| Naming.PoissonSimIdInjective | neuromlcap/analysis/analysis.py:301 | `poisson_stim_sim_{i}` and `poisson_stim_sim_{j}` differ unless `i == j` |
| Naming.ColumnIdRoundTrip | neuromlcap/analysis/analysis.py:288-291 | the column id `v_cell_0_{s}` gives back the segment key `s` it was made for |
| Naming.PoissonPreCellIdInjective | neuromlcap/analysis/analysis.py:364 | `../SpikeGeneratorPoissons[{ctr}]` names different generator instances for different counters |
| Dicts.Dict.Put | neuromlcap/analysis/analysis.py:193-196 | after `d[k] = v`, `k` maps to `v` and every other key keeps its value |
| Dicts.PutValid | neuromlcap/analysis/analysis.py:193-196 | one assignment keeps the insertion order listing each key exactly once, and listing exactly the keys that are present |
| Dicts.PutAllValid | neuromlcap/analysis/analysis.py:199-211 | any sequence of assignments keeps that invariant |
| Dicts.PutAllAppend | neuromlcap/analysis/analysis.py:192-211 | performing assignments in two runs is performing them in one |
| Dicts.PutAllKeepsOrder | neuromlcap/analysis/analysis.py:207-211 | assignments never move the keys already present: the old order is a prefix of the new one |
| Dicts.PutAllDomain | neuromlcap/analysis/analysis.py:199-211 | a key is present afterwards if and only if it was present before or was assigned |
| Dicts.PutAllLastWins | neuromlcap/analysis/analysis.py:207-211 | a key holds the value of its last assignment |
| Dicts.PutAllUntouched | neuromlcap/analysis/analysis.py:207-211 | a key that is not assigned keeps its old value |
| Dicts.PutAllSize | neuromlcap/analysis/analysis.py:199-211 | the dict grows by at most one key per assignment, and by exactly one per assignment if and only if the assigned keys are distinct and all new |
| Dicts.PutAllDistinctKeys | neuromlcap/analysis/analysis.py:150-155 | distinct keys assigned into `{}` come out in assignment order |
| Dicts.PutAllFirstKey | neuromlcap/analysis/analysis.py:192-196 | the first key assigned into `{}` is the first key of the result |
| Dicts.PutAllFirstOccurrenceOrder | neuromlcap/analysis/analysis.py:199-211 | new keys are ordered by their first assignment, whatever is re-assigned later |
| Dicts.NewKeysAssigned | neuromlcap/analysis/analysis.py:199-211 | every key after the old ones was assigned, and was not present before |
| Colors.ColorIterator.constructor | neuromlcap/analysis/analysis.py:190 | a fresh iterator over a ramp of `nsegs` colours has handed out none |
| Colors.ColorIterator.Next | neuromlcap/analysis/analysis.py:195 | `next(colors)` hands out the ramp's colours in order, one per call; it may only be called while colours remain, so StopIteration never happens |
| Randomness.SampleOf | neuromlcap/analysis/analysis.py:187 | `random.sample(population, k)` succeeds if and only if `0 <= k <= len(population)` (otherwise ValueError), and then returns `k` elements at distinct positions |
| Randomness.SampleDistinct | neuromlcap/analysis/analysis.py:139-142 | sampling is without replacement: a sample of distinct segments has no repeats |
| Randomness.RandomSource.Seed | neuromlcap/analysis/analysis.py:65 | `random.seed(seed)` is logged as the next call on the generator |
| Randomness.RandomSource.Sample | neuromlcap/analysis/analysis.py:187 | returns the sample of `SampleOf`, and logs the call only when it succeeds |
| Randomness.RandomSource.RandInt | neuromlcap/analysis/analysis.py:307 | `random.randint(0, 99999)` returns a value in range and logs one draw |
| Selection.FirstEmptyGroup | neuromlcap/analysis/analysis.py:199-202 | the position of the first sampled group without segments, where `segments[int(len/2)]` raises IndexError (the length when there is none) |
| Selection.RecordNewSelection | neuromlcap/analysis/analysis.py:188-211 | the new-selection loops leave exactly the table `NewTable`; a group without segments raises IndexError after the earlier assignments |
| Selection.AssignMidpoints | neuromlcap/analysis/analysis.py:199-205 | the loop over the sampled groups assigns midpoints up to the first empty group, one colour each; the empty group still takes its colour, because `list(next(colors))` is evaluated before the subscript raises |
| Selection.AssignExtras | neuromlcap/analysis/analysis.py:207-211 | the loop over the extras assigns `str(s)` for each, one colour each, continuing the same ramp |
| Selection.NewTableStopped | neuromlcap/analysis/analysis.py:199-202 | when a group is empty, the table is the soma plus the midpoints before that group; no extra is assigned |
| Selection.AssignedKeysComplete | neuromlcap/analysis/analysis.py:192-211 | without an empty group the assignments are the soma, every midpoint and every extra, in that order |
| Selection.AssignedKeysCount | neuromlcap/analysis/analysis.py:188-211 | a new selection makes at least one and at most `nsegs` assignments, exactly `nsegs` if and only if no group is empty |
| Selection.SomaFirst | neuromlcap/analysis/analysis.py:192-196 | in a new table `"0"` is always present and is the first key |
| Selection.SelectionSize | neuromlcap/analysis/analysis.py:187-211 | a new table has at most `nsegs` entries, and exactly `nsegs` if and only if no group is empty and no two assignments share a key |
| Selection.AssignedKeyRecorded | neuromlcap/analysis/analysis.py:192-211 | every assigned key is in the table afterwards |
| Selection.MidpointsRecorded | neuromlcap/analysis/analysis.py:199-205 | when no sampled group is empty, the `g`-th sampled group contributes `str(segments[len/2])` of its ordered segments, recorded in the table |
| Selection.ExtrasRecorded | neuromlcap/analysis/analysis.py:207-211 | when no sampled group is empty, every configured extra is recorded under `str(s)`, in configured order after the midpoints |
| Selection.ExtraKeyAt | neuromlcap/analysis/analysis.py:207-211 | the `e`-th extra is assignment `1 + len(sampled) + e` |
| Selection.MarkerOfKey | neuromlcap/analysis/analysis.py:192-211 | each key holds the configured marker size and the colour of its last assignment |
| Selection.DistinctColors | neuromlcap/analysis/analysis.py:188-211 | different keys of a new table carry different colours of the same `nsegs`-colour ramp, all with `marker_size = segment_marker_size` |
| Selection.KeysInFirstAssignmentOrder | neuromlcap/analysis/analysis.py:192-211 | a key assigned twice keeps the position of its first assignment |
| Selection.SomaColor | neuromlcap/analysis/analysis.py:190-196 | the soma takes the first colour unless a later assignment re-uses `"0"` |
| Selection.MarkInputs | neuromlcap/analysis/analysis.py:144-155 | the input-marks loop leaves one assignment per sampled segment id, the `i`-th with colour `i` of a `num_inputs` ramp |
| Selection.InputMarksShape | neuromlcap/analysis/analysis.py:144-155 | distinct input segments give one mark each, in sampling order, the `i`-th with ramp colour `i` |
| Simulations.OutputColumns | neuromlcap/analysis/analysis.py:288-291 | the column loop adds one column per recorded key, in key order: `v_cell_0_{s}` recording `{pop}/0/{cell}/{s}/v` |
| Simulations.ColumnsAreKeys | neuromlcap/analysis/analysis.py:380-383 | there are as many columns as recorded keys, and column `i` names key `i` and its voltage path |
| Simulations.ColumnIdsDistinct | neuromlcap/analysis/analysis.py:288-291 | the column ids are distinct if and only if the recorded keys are |
| Simulations.PoissonConnections | neuromlcap/analysis/analysis.py:360-371 | the connection loop adds connection `ctr` from generator instance `ctr` to the `ctr`-th input segment |
| Simulations.ConnectionNumbering | neuromlcap/analysis/analysis.py:360-371 | connection `i` has id `str(i)`, its `pre_cell_id` index is its id, and its `post_segment_id` reads back as the segment id |
| Simulations.ConnectionIdsDistinct | neuromlcap/analysis/analysis.py:360-371 | connection ids, and the generator instances they start from, are pairwise distinct |
| Simulations.SimulationRecordsEveryKey | neuromlcap/analysis/analysis.py:281-291 | every generated simulation has one column per recorded key, includes the cell file, its network file and the extra LEMS files, and writes `{id}.v.dat` |
| Simulations.PoissonStimulusShape | neuromlcap/analysis/analysis.py:339-351 | the generator population has one instance per input segment, every connection starts at an existing instance, and the generator is `pi_{counter}_0` |
| Simulations.PoissonSimsShareId | neuromlcap/analysis/analysis.py:301 | as written every Poisson simulation of a run has id `poisson_stim_sim_0`, each with its own drawn seed |
| Manifests.StepCurrentIdsDistinct | neuromlcap/analysis/analysis.py:119-129 | the fi ids `step_current_sim_0 .. step_current_sim_{n-1}` are pairwise distinct |
| Manifests.FiAssignmentsManifest | neuromlcap/analysis/analysis.py:119-129 | the fi manifest lists `step_current_sim_k` in the order of the currents, entry `k` holding segment `"0"`, current `k` and its file |
| Manifests.FiManifestKeys | neuromlcap/analysis/analysis.py:111-132 | the fi manifest has the sweep's ids when no currents are listed, and is `{}` otherwise |
| Manifests.FiManifestIgnoresExplicitCurrents | neuromlcap/analysis/analysis.py:112 | as written, listed currents leave the manifest empty where the intended manifest has one entry per current |
| Manifests.IntendedFiManifestShape | neuromlcap/analysis/analysis.py:112-129 | the intended fi manifest has one entry per listed current, in order |
| Manifests.PoissonManifestCollapses | neuromlcap/analysis/analysis.py:158-164 | as written the Poisson manifest has the single key `poisson_stim_sim_0` after one or more iterations (none after zero), holding the last iteration's file |
| Manifests.IntendedPoissonManifestShape | neuromlcap/analysis/analysis.py:158-164 | the intended Poisson manifest keeps every iteration, in order, under `poisson_stim_sim_{i}` |
| Manifests.PoissonManifestLosesIterations | neuromlcap/analysis/analysis.py:158-164 | with two or more iterations the written manifest keeps one entry where the intended one keeps all |
| Outputs.JsonKeysDistinct | neuromlcap/analysis/analysis.py:166-167 | dumping the integer input ids as JSON string keys merges no two marks |
| Analysis.NeuroMLCAP.constructor | neuromlcap/analysis/analysis.py:37-47 | a new object keeps the configuration file name, with no configuration, cell or folder and empty dicts |
| Analysis.NeuroMLCAP.Prepare | neuromlcap/analysis/analysis.py:49-92 | reads the configuration and seeds the generator; without a folder the call at line 68 raises TypeError; with a folder the analysis resumes, loading the stored table and making no draw |
| Analysis.NeuroMLCAP.PrepareIntended | neuromlcap/analysis/analysis.py:67-90 | a new folder `{timestamp}_{cell_file}` (FileExistsError when it exists, as `os.mkdir` in `create_analysis_dir` raises, leaving everything but the configuration and seed unchanged) and a new selection: one sample of the unbranched groups, then `NewTable`, with `segments_recorded.json` written exactly when it succeeds |
| Analysis.NeuroMLCAP.GetSegmentsToRecord | neuromlcap/analysis/analysis.py:172-216 | resuming loads the stored table (FileNotFound if absent) and draws nothing; a new selection draws one sample, builds `NewTable` and writes it, or fails with the sample's ValueError or a group's IndexError |
| Effects.AfterBlocksManifest | neuromlcap/analysis/analysis.py:106-170 | the manifest the blocks leave in `recorder`: after the Poisson block with its sample drawn, only `poisson_stim_sim_0` holding the last file; `{}` when that sample raised; after the fi block alone, the sweep ids or none; with neither block, all four fields unchanged |
| Analysis.NeuroMLCAP.CreateSimAnalyses | neuromlcap/analysis/analysis.py:106-170 | the fi block when `fi_curves` is set, then the Poisson block when `poisson_inputs` is set: the files written, the simulations generated, the draws taken and the final `recorder`, `sim_counter`, input segments and marks (`AfterBlocks`) are those of `Effects` |
| Analysis.NeuroMLCAP.FiCurveSims | neuromlcap/analysis/analysis.py:109-132 | resets the manifest, simulates the sweep only when no currents are listed, and always writes `sims_fi.json` |
| Analysis.NeuroMLCAP.FiSweep | neuromlcap/analysis/analysis.py:119-129 | the counter goes 0 to `n`; simulation `k` and manifest entry `k` are the `k`-th current's |
| Analysis.NeuroMLCAP.PoissonInputSims | neuromlcap/analysis/analysis.py:134-170 | samples the inputs once (ValueError if too many), marks them, runs the iterations with the counter at 0, and writes the marks then the manifest |
| Analysis.NeuroMLCAP.PoissonBlock | neuromlcap/analysis/analysis.py:150-170 | with the inputs sampled: keeps them, marks them from a `num_inputs` ramp, builds the collapsed manifest and writes the marks then the manifest |
| Analysis.NeuroMLCAP.PoissonIterations | neuromlcap/analysis/analysis.py:158-164 | one simulation and one seed draw per iteration, each entered in the manifest under the unchanged counter |
| Analysis.NeuroMLCAP.GenerateStepCurrentSim | neuromlcap/analysis/analysis.py:219-294 | returns `step_current_sim_{counter}` and adds the simulation `StepCurrentSim` with its pulse generator, includes and columns |
| Analysis.NeuroMLCAP.GeneratePoissonInputSim | neuromlcap/analysis/analysis.py:296-386 | draws one seed, returns `poisson_stim_sim_{counter}` and adds the simulation `PoissonInputSim` with its connections, population size and columns |
| LegacyAnalysis.AnalysisDirName | analysis.py:68 | the folder name is the timestamp, `_`, then the cell file, and both parts can be read back from it |
| LegacyAnalysis.AnalysisDirNameInjective | analysis.py:67-68 | runs of one cell at different timestamps use different folders |
| LegacyAnalysis.NeuroMLCAP.constructor | analysis.py:38-48 | a new object has no configuration, cell or folder and empty dicts |
| LegacyAnalysis.NeuroMLCAP.ReadConfig | analysis.py:50-63 | keeps the configuration and its file name, and seeds the generator before any other draw |
| LegacyAnalysis.NeuroMLCAP.CreateAnalysisDir | analysis.py:65-69 | names the folder `{timestamp}_{cell_file}`, and fails with FileExistsError when it exists |
| LegacyAnalysis.NeuroMLCAP.Run | analysis.py:71-167 | a new folder, the first cell, always a new selection, then the fi and Poisson blocks; each failure ends the run with nothing further written, generated or drawn and every field it has not yet reached unchanged; a completed selection leaves the block fields of `AfterBlocks` |
| LegacyAnalysis.NeuroMLCAP.Setup | analysis.py:73-98 | the folder, the first cell (IndexError if the document has none) and the new selection; FileExistsError leaves `cell_file`, the cell, the groups and the table unchanged, IndexError on the cells leaves the groups and the table, ValueError leaves the table |
| LegacyAnalysis.NeuroMLCAP.SimulationBlocks | analysis.py:105-167 | the fi block when `fi_curves` is set, then the Poisson block when `poisson_inputs` is set: the files, simulations, draws and final block fields (`AfterBlocks`) of `Effects` |
| LegacyAnalysis.NeuroMLCAP.GetSegmentsToRecord | analysis.py:169-205 | one sample of the unbranched groups, then `NewTable`, written to `segments_recorded.json`; there is no resume path |
| LegacyAnalysis.NeuroMLCAP.FiCurveSims | analysis.py:106-129 | resets the manifest, simulates the sweep only when no currents are listed, and always writes `sims_fi.json` |
| LegacyAnalysis.NeuroMLCAP.FiSweep | analysis.py:116-126 | the counter goes 0 to `n`; simulation `k` and manifest entry `k` are the `k`-th current's |
| LegacyAnalysis.NeuroMLCAP.PoissonInputSims | analysis.py:131-167 | samples the inputs once, marks them from a `num_inputs` ramp, runs the iterations with the counter at 0, and writes the marks then the manifest |
| LegacyAnalysis.NeuroMLCAP.PoissonBlock | analysis.py:147-167 | with the inputs sampled: keeps them, marks them from a `num_inputs` ramp, builds the collapsed manifest and writes the marks then the manifest |
| LegacyAnalysis.NeuroMLCAP.PoissonIterations | analysis.py:155-161 | one simulation and one seed draw per iteration, each entered under the unchanged counter |
| LegacyAnalysis.NeuroMLCAP.GenerateStepCurrentSim | analysis.py:207-282 | returns `step_current_sim_{counter}` and adds `StepCurrentSim`, with one column per recorded key |
| LegacyAnalysis.NeuroMLCAP.GeneratePoissonInputSim | analysis.py:284-374 | draws one seed, returns `poisson_stim_sim_{counter}` and adds `PoissonInputSim`, whose generator population has one instance per input segment |

## Left out

- Library calls (pyNeuroML, libNeuroML): the LEMS and NeuroML builders, file writing and reading, and
  `get_model_file_list`. A simulation is a value recording the names and structure the pipeline chooses. The library
  calls' results (the saved LEMS file names, the cells of the read document, the unbranched groups and their ordered
  segments) are parameters.
- Engine settings the pipeline passes through without using: durations, time step, temperature, rates, synapse
  parameters and `convert_to_units`, a foreign unit library.
- Floating-point values:
  - the fi sweep `numpy.linspace(...)` is an input sequence of currents;
  - colours `cm.rainbow(...)` are ramp positions, not RGBA values. Distinct positions are distinct colours in the
    model; the colour map's finite resolution could map two nearby positions of a large ramp to the same RGBA tuple.
- The random generator's internals: its outcomes are parameters; its calls are logged.
- File and OS I/O:
  - the JSON dumps are a log of written values, and the loaded `segments_recorded.json` is a parameter;
  - `simulation.txt`, `shutil.copytree`, `shutil.copy` and `os.chdir` are not modelled;
  - `os.mkdir` appears only as its FileExistsError case (in the older driver's `__create_analysis_dir` and the
    package's intended preparation), with the existing folders as a parameter;
  - the clock is a timestamp parameter;
  - reading the TOML configuration (`read_config`) is a `Config` parameter.
- Plotting (`run_model_analyses`, `plot_morpholgy_2d` of the recorded and input segments) and the command line
  script, which only dispatch.
- `analyse()` is only a wrapper: it runs the model analyses, then `CreateSimAnalyses`.
- The package's `run()` calls `prepare()` with no argument and raises TypeError at once. It is not modelled.
- Segments are identified by their integer ids. `str(s.id)` and `sg.id` are written from those ids.
- `int(len(segments) / 2)` is integer halving of a non-negative length. For the lengths that occur, the
  floating-point division and truncation give the same result.
- Every field of the model exists from construction. In the source, `sim_counter`, `cell_obj`,
  `cell_file`, `poisson_input_segments` and `input_segment_marks` first exist when a later
  step sets them. The model starts them at 0, None, `""`, `[]` and `{}`.
- Analysis.NeuroMLCAP.PrepareIntended: does not model copying the cell folder. As written, `shutil.copytree` into the
  folder just created would itself raise FileExistsError; the intended preparation copies into the new folder.

## Findings

| source | as written | input that shows it | evidently intended | confidence | as-written member | corrected member |
|---|---|---|---|---|---|---|
| neuromlcap/analysis/analysis.py:158-164 | the Poisson loop never increments `sim_counter`, so every iteration is `poisson_stim_sim_0` and overwrites the previous manifest entry | `num_iterations = 2`: two simulations, one manifest entry | one id and one manifest entry per iteration | not executed | Manifests.PoissonManifestLosesIterations | Manifests.IntendedPoissonManifestShape |
| analysis.py:155-161 | the same loop in the older driver, with the same collapse | `num_iterations = 2` | one id and one manifest entry per iteration | not executed | Manifests.PoissonManifestCollapses | Manifests.IntendedPoissonManifestShape |
| neuromlcap/analysis/analysis.py:112 | a configured list of currents is never simulated; the fi manifest stays `{}` | `currents = [0.1]` | simulate the listed currents when given, the sweep otherwise | not executed | Manifests.FiManifestIgnoresExplicitCurrents | Manifests.IntendedFiManifestShape |
| neuromlcap/analysis/analysis.py:68 | `create_analysis_dir(self.cell_file, False)` passes two arguments to a function of one (neuromlcap/utils/utils.py:21), so `prepare(None)` raises TypeError | `prepare(None)` | create `{timestamp}_{cell_file}` and make a new selection | not executed | Analysis.NeuroMLCAP.Prepare | Analysis.NeuroMLCAP.PrepareIntended |
