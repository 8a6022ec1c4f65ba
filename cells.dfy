/** What the pipeline reads from the model library and from its configuration file. */
module Cells {

  /** A segment group: its name and its segment ids as `get_all_segments_in_group` lists them. */
  datatype SegmentGroup = SegmentGroup(name: string, segments: seq<nat>)

  /**
   * The cell of the model document: its id, the ids of `morphology.segments` in order,
   * and the unbranched groups `get_segment_groups_by_substring("", unbranched=True)`
   * returns, in the order of that dict's values.
   */
  datatype Cell = Cell(id: string, segments: seq<nat>, unbranchedGroups: seq<SegmentGroup>)

  /**
   * The configuration settings the pipeline's own logic reads: `[default]`,
   * `[fi_curves]` and `[poisson_inputs]`. Engine settings (durations, time
   * step, temperature, rates) are handed straight to the library and are not kept.
   */
  datatype Config = Config(
    seed: int,
    cellFile: string,
    cellDir: string,
    numSegsRecord: int,
    extraSegmentsRecord: seq<nat>,
    segmentMarkerSize: int,
    extraLemsDefinitionFiles: seq<string>,
    plotMorphology: bool,
    fiCurves: bool,
    poissonInputs: bool,
    currents: seq<real>,
    numInputs: int,
    numIterations: int)
}
