/**
 * The simulations `generate_step_current_sim` and `generate_poisson_input_sim`
 * describe. The model keeps what the pipeline computes itself (identifiers,
 * file names, output columns, connections); the documents the library builds
 * and the file `save_to_file` writes are represented only by their names.
 */
module Simulations {
  import opened Common
  import opened Naming

  /** `ls.add_column_to_output_file("output_file", id, quantity)` */
  datatype Column = Column(id: string, quantity: string)

  /** One `neuroml.Connection` of the Poisson projection. */
  datatype Connection = Connection(
    id: string,
    preCellId: string,
    preSegmentId: string,
    preFractionAlong: string,
    postCellId: string,
    postSegmentId: string,
    postFractionAlong: string)

  /** What is injected into the cell. */
  datatype Stimulus =
      /** A pulse generator `pg_{counter}` with one input to `../{pop}/0` at a segment. */
    | PulseInput(generatorId: string, amplitude: real, inputTarget: string, segmentId: int)
      /**
       * A `SpikeGeneratorPoisson` component, the population `SpikeGeneratorPoissons`
       * of `populationSize` instances of it, and the connections of `PoissonProjections`.
       */
    | PoissonInputs(generatorId: string, populationSize: nat, connections: seq<Connection>)

  /** One generated simulation: the LEMS description and the network file it includes. */
  datatype Simulation = Simulation(
    simId: string,
    seed: Option<int>,
    cellFile: string,
    populationId: string,
    stimulus: Stimulus,
    networkFile: string,
    lemsIncludes: seq<string>,
    outputFile: string,
    columns: seq<Column>,
    lemsFile: string)

  /** The state a simulation is built from: the model file, the cell, the recorded keys and extra LEMS files. */
  datatype SimContext = SimContext(cellFile: string, cellId: string, recordedKeys: seq<string>, extraLemsFiles: seq<string>)

  // ---- output columns ----

  /** One column per recorded key, in key order: `v_cell_0_{s}` recording `{pop}/0/{cell}/{s}/v`. */
  function ColumnsFor(keys: seq<string>, populationId: string, cellId: string): seq<Column>
  {
    seq(|keys|, i requires 0 <= i < |keys| => Column(ColumnId(keys[i]), VoltageQuantity(populationId, cellId, keys[i])))
  }

  /** The loop over `recorded_segments.keys()` adding one column each. */
  method OutputColumns(keys: seq<string>, populationId: string, cellId: string) returns (columns: seq<Column>)
    ensures columns == ColumnsFor(keys, populationId, cellId)
  {
    columns := [];
    for i := 0 to |keys|
      invariant columns == ColumnsFor(keys[..i], populationId, cellId)
    {
      var s := keys[i];
      columns := columns + [Column(ColumnId(s), VoltageQuantity(populationId, cellId, s))];
    }
    assert keys[..|keys|] == keys;
  }

  /**
   * The columns are the recorded keys, in order: there is one per key and each
   * column id gives back the key it was made for.
   */
  lemma ColumnsAreKeys(keys: seq<string>, populationId: string, cellId: string, i: nat)
    requires i < |keys|
    ensures |ColumnsFor(keys, populationId, cellId)| == |keys|
    ensures |ColumnsFor(keys, populationId, cellId)[i].id| >= |ColumnPrefix|
    ensures ColumnSegment(ColumnsFor(keys, populationId, cellId)[i].id) == keys[i]
    ensures ColumnsFor(keys, populationId, cellId)[i].quantity == populationId + "/0/" + cellId + "/" + keys[i] + "/v"
  {
    ColumnIdRoundTrip(keys[i]);
  }

  /** Column ids are distinct exactly when the recorded keys are. */
  lemma ColumnIdsDistinct(keys: seq<string>, populationId: string, cellId: string)
    ensures var cs := ColumnsFor(keys, populationId, cellId);
            Distinct(keys) <==> forall i, j :: 0 <= i < j < |cs| ==> cs[i].id != cs[j].id
  {
    var cs := ColumnsFor(keys, populationId, cellId);
    forall i, j | 0 <= i < j < |cs| ensures cs[i].id == cs[j].id <==> keys[i] == keys[j] {
      ColumnIdRoundTrip(keys[i]);
      ColumnIdRoundTrip(keys[j]);
    }
  }

  // ---- Poisson connections ----

  /** Connection `ctr` from generator instance `ctr` to the input segment `s`. */
  function ConnectionFor(ctr: nat, segment: nat, populationId: string, cellId: string): Connection
  {
    Connection(NatToString(ctr), PoissonPreCellId(ctr), "0", "0.5", PostCellId(populationId, cellId), NatToString(segment), "0.5")
  }

  /** The connections for the input segments, numbered from 0 in sampling order. */
  function ConnectionsFor(inputs: seq<nat>, populationId: string, cellId: string): seq<Connection>
  {
    seq(|inputs|, i requires 0 <= i < |inputs| => ConnectionFor(i, inputs[i], populationId, cellId))
  }

  /** The loop over `poisson_input_segments`, with its counter `ctr`. */
  method PoissonConnections(inputs: seq<nat>, populationId: string, cellId: string) returns (connections: seq<Connection>)
    ensures connections == ConnectionsFor(inputs, populationId, cellId)
  {
    connections := [];
    var ctr := 0;
    while ctr < |inputs|
      invariant 0 <= ctr <= |inputs|
      invariant connections == ConnectionsFor(inputs[..ctr], populationId, cellId)
    {
      var s := inputs[ctr];
      connections := connections + [Connection(NatToString(ctr), PoissonPreCellId(ctr), "0", "0.5",
                                               PostCellId(populationId, cellId), NatToString(s), "0.5")];
      ctr := ctr + 1;
    }
    assert inputs[..ctr] == inputs;
  }

  /**
   * Connection `i` has id `str(i)`, starts at instance `i` of the generator
   * population (whose index reads back as its id), and ends at the `i`-th input segment.
   */
  lemma ConnectionNumbering(inputs: seq<nat>, populationId: string, cellId: string, i: nat)
    requires i < |inputs|
    ensures var c := ConnectionsFor(inputs, populationId, cellId)[i];
            ParseDecimal(c.id) == i &&
            c.preCellId == "../" + GeneratorPopulation + "[" + c.id + "]" &&
            ParseDecimal(c.postSegmentId) == inputs[i] &&
            c.postCellId == "../" + populationId + "/0/" + cellId + "/"
  {
    ParseNatToString(i);
    ParseNatToString(inputs[i]);
  }

  /** Connection ids, and the generator instances they start from, are pairwise distinct. */
  lemma ConnectionIdsDistinct(inputs: seq<nat>, populationId: string, cellId: string)
    ensures var cs := ConnectionsFor(inputs, populationId, cellId);
            forall i, j :: 0 <= i < j < |cs| ==> cs[i].id != cs[j].id && cs[i].preCellId != cs[j].preCellId
  {
    var cs := ConnectionsFor(inputs, populationId, cellId);
    forall i, j | 0 <= i < j < |cs| ensures cs[i].id != cs[j].id && cs[i].preCellId != cs[j].preCellId {
      NatToStringInjective(i, j);
      PoissonPreCellIdInjective(i, j);
    }
  }

  // ---- the two kinds of simulation ----

  /**
   * `generate_step_current_sim(current, segment_id)` with `sim_counter == counter`,
   * the library saving the LEMS file under `lemsFile`.
   */
  function StepCurrentSim(ctx: SimContext, counter: nat, current: real, segmentId: int, lemsFile: string): Simulation
  {
    var simId := StepCurrentSimId(counter);
    var pop := PopulationId(ctx.cellId);
    Simulation(simId, None, ctx.cellFile, pop,
               PulseInput(PulseGeneratorId(counter), current, CellTarget(pop), segmentId),
               NetworkFileName(simId), [ctx.cellFile, NetworkFileName(simId)] + ctx.extraLemsFiles,
               OutputFileName(simId), ColumnsFor(ctx.recordedKeys, pop, ctx.cellId), lemsFile)
  }

  /**
   * `generate_poisson_input_sim()` with `sim_counter == counter`, the generator
   * drawing `seed` and the library saving the LEMS file under `lemsFile`.
   */
  function PoissonInputSim(ctx: SimContext, counter: nat, seed: int, inputs: seq<nat>, lemsFile: string): Simulation
  {
    var simId := PoissonSimId(counter);
    var pop := PopulationId(ctx.cellId);
    Simulation(simId, Some(seed), ctx.cellFile, pop,
               PoissonInputs(PoissonGeneratorId(counter, 0), |inputs|, ConnectionsFor(inputs, pop, ctx.cellId)),
               NetworkFileName(simId), [ctx.cellFile, NetworkFileName(simId)] + ctx.extraLemsFiles,
               OutputFileName(simId), ColumnsFor(ctx.recordedKeys, pop, ctx.cellId), lemsFile)
  }

  /**
   * Every simulation records one column per recorded key, in key order, and
   * includes the cell file, then its own network file, then the extra LEMS files.
   */
  lemma SimulationRecordsEveryKey(sim: Simulation, ctx: SimContext, i: nat)
    requires (exists counter: nat, current: real, segmentId: int, lemsFile: string ::
                sim == StepCurrentSim(ctx, counter, current, segmentId, lemsFile)) ||
             (exists counter: nat, seed: int, inputs: seq<nat>, lemsFile: string ::
                sim == PoissonInputSim(ctx, counter, seed, inputs, lemsFile))
    requires i < |ctx.recordedKeys|
    ensures |sim.columns| == |ctx.recordedKeys|
    ensures |sim.columns[i].id| >= |ColumnPrefix| && ColumnSegment(sim.columns[i].id) == ctx.recordedKeys[i]
    ensures sim.lemsIncludes[..2] == [ctx.cellFile, sim.simId + ".net.nml"] && sim.lemsIncludes[2..] == ctx.extraLemsFiles
    ensures sim.outputFile == sim.simId + ".v.dat"
  {
    ColumnsAreKeys(ctx.recordedKeys, sim.populationId, ctx.cellId, i);
  }

  /**
   * A Poisson simulation's generator population has one instance per input
   * segment, and connection `i` starts at instance `i`, which exists.
   */
  lemma PoissonStimulusShape(ctx: SimContext, counter: nat, seed: int, inputs: seq<nat>, lemsFile: string, i: nat)
    requires i < |inputs|
    ensures var st := PoissonInputSim(ctx, counter, seed, inputs, lemsFile).stimulus;
            st.populationSize == |inputs| && |st.connections| == |inputs| &&
            st.generatorId == "pi_" + NatToString(counter) + "_0" &&
            ParseDecimal(st.connections[i].id) < st.populationSize
  {
    ConnectionNumbering(inputs, PopulationId(ctx.cellId), ctx.cellId, i);
  }

  // ---- the simulations of a loop ----

  /** The step-current simulations of the fi loop: the `k`-th current with counter `k`, at segment 0. */
  function StepCurrentSims(ctx: SimContext, currents: seq<real>, files: seq<string>): seq<Simulation>
    requires |files| == |currents|
  {
    seq(|currents|, k requires 0 <= k < |currents| => StepCurrentSim(ctx, k, currents[k], 0, files[k]))
  }

  lemma StepCurrentSimsSnoc(ctx: SimContext, currents: seq<real>, files: seq<string>, k: nat)
    requires |files| == |currents| && k < |currents|
    ensures StepCurrentSims(ctx, currents[..k + 1], files[..k + 1]) ==
            StepCurrentSims(ctx, currents[..k], files[..k]) + [StepCurrentSim(ctx, k, currents[k], 0, files[k])]
  {
  }

  /** The Poisson simulations of the iterations, all with the same counter and inputs, each with its own seed. */
  function PoissonSims(ctx: SimContext, counter: nat, seeds: seq<int>, inputs: seq<nat>, files: seq<string>): seq<Simulation>
    requires |files| == |seeds|
  {
    seq(|seeds|, i requires 0 <= i < |seeds| => PoissonInputSim(ctx, counter, seeds[i], inputs, files[i]))
  }

  lemma PoissonSimsSnoc(ctx: SimContext, counter: nat, seeds: seq<int>, inputs: seq<nat>, files: seq<string>, i: nat)
    requires |files| == |seeds| && i < |seeds|
    ensures PoissonSims(ctx, counter, seeds[..i + 1], inputs, files[..i + 1]) ==
            PoissonSims(ctx, counter, seeds[..i], inputs, files[..i]) + [PoissonInputSim(ctx, counter, seeds[i], inputs, files[i])]
  {
  }

  /**
   * As written every Poisson simulation of a run has the id `poisson_stim_sim_0`,
   * while their seeds are the successive draws.
   */
  lemma PoissonSimsShareId(ctx: SimContext, seeds: seq<int>, inputs: seq<nat>, files: seq<string>, i: nat)
    requires |files| == |seeds| && i < |seeds|
    ensures PoissonSims(ctx, 0, seeds, inputs, files)[i].simId == "poisson_stim_sim_0"
    ensures PoissonSims(ctx, 0, seeds, inputs, files)[i].seed == Some(seeds[i])
  {
  }
}
