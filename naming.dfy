/**
 * The identifiers and file names the pipeline builds itself with f-strings,
 * and Python's `str()` of a non-negative integer, which they are built from.
 */
module Naming {

  predicate IsDigit(c: char)
  {
    '0' <= c <= '9'
  }

  function DigitChar(d: nat): (c: char)
    requires d < 10
    ensures IsDigit(c) && c as int - '0' as int == d
  {
    ('0' as int + d) as char
  }

  /** `str(n)`: the decimal numeral of `n`, without leading zeros. */
  function NatToString(n: nat): (s: string)
    ensures |s| > 0 && forall i :: 0 <= i < |s| ==> IsDigit(s[i])
    ensures s[0] == '0' ==> n == 0
  {
    if n < 10 then [DigitChar(n)] else NatToString(n / 10) + [DigitChar(n % 10)]
  }

  /** `int(s)` for a string of decimal digits. */
  function ParseDecimal(s: string): nat
    requires forall i :: 0 <= i < |s| ==> IsDigit(s[i])
  {
    if s == [] then 0
    else assert IsDigit(s[|s| - 1]); ParseDecimal(s[..|s| - 1]) * 10 + (s[|s| - 1] as int - '0' as int)
  }

  /** Reading the numeral back gives the number: `int(str(n)) == n`. */
  lemma {:induction false} ParseNatToString(n: nat)
    ensures ParseDecimal(NatToString(n)) == n
  {
    if n >= 10 {
      var s := NatToString(n);
      assert s[..|s| - 1] == NatToString(n / 10);
      ParseNatToString(n / 10);
    }
  }

  /** Different numbers have different numerals. */
  lemma NatToStringInjective(m: nat, n: nat)
    ensures NatToString(m) == NatToString(n) ==> m == n
  {
    ParseNatToString(m);
    ParseNatToString(n);
  }

  lemma PrefixCancel(p: string, a: string, b: string)
    ensures p + a == p + b ==> a == b
  {
    if p + a == p + b {
      assert a == (p + a)[|p|..];
      assert b == (p + b)[|p|..];
    }
  }

  lemma AffixCancel(p: string, a: string, b: string, q: string)
    ensures p + a + q == p + b + q ==> a == b
  {
    if p + a + q == p + b + q {
      assert |a| == |b|;
      assert a == (p + a + q)[|p|..|p| + |a|];
      assert b == (p + b + q)[|p|..|p| + |b|];
    }
  }

  // ---- identifiers of simulations and their parts ----

  /** `f"step_current_sim_{sim_counter}"` */
  function StepCurrentSimId(counter: nat): string
  {
    "step_current_sim_" + NatToString(counter)
  }

  /** `f"poisson_stim_sim_{sim_counter}"` */
  function PoissonSimId(counter: nat): string
  {
    "poisson_stim_sim_" + NatToString(counter)
  }

  /** `f"pg_{sim_counter}"` */
  function PulseGeneratorId(counter: nat): string
  {
    "pg_" + NatToString(counter)
  }

  /** `f"pi_{sim_counter}_{ctr}"` */
  function PoissonGeneratorId(counter: nat, ctr: nat): string
  {
    "pi_" + NatToString(counter) + "_" + NatToString(ctr)
  }

  /** `f"population_of_{cell.id}"` */
  function PopulationId(cellId: string): string
  {
    "population_of_" + cellId
  }

  /** `f"{sim_id}.net.nml"` */
  function NetworkFileName(simId: string): string
  {
    simId + ".net.nml"
  }

  /** `f"{sim_id}.v.dat"` */
  function OutputFileName(simId: string): string
  {
    simId + ".v.dat"
  }

  /** `f"../{pop.id}/0"`: the single cell of the population. */
  function CellTarget(populationId: string): string
  {
    "../" + populationId + "/0"
  }

  // ---- output columns ----

  const ColumnPrefix := "v_cell_0_"

  /** `f"v_cell_0_{s}"` */
  function ColumnId(segment: string): string
  {
    ColumnPrefix + segment
  }

  /** `f"{pop.id}/0/{cell.id}/{s}/v"`: membrane potential of segment `s` of cell 0. */
  function VoltageQuantity(populationId: string, cellId: string, segment: string): string
  {
    populationId + "/0/" + cellId + "/" + segment + "/v"
  }

  /** The segment key a column id was built from. */
  function ColumnSegment(columnId: string): string
    requires |columnId| >= |ColumnPrefix|
  {
    columnId[|ColumnPrefix|..]
  }

  // ---- Poisson connections ----

  /** Name of the generator population the Poisson connections start from. */
  const GeneratorPopulation := "SpikeGeneratorPoissons"

  /** `f"../{pi_pop.id}[{ctr}]"` */
  function PoissonPreCellId(ctr: nat): string
  {
    "../" + GeneratorPopulation + "[" + NatToString(ctr) + "]"
  }

  /** `f"../{pop.id}/0/{cell.id}/"` */
  function PostCellId(populationId: string, cellId: string): string
  {
    "../" + populationId + "/0/" + cellId + "/"
  }

  // ---- facts about the names ----

  /** Step-current simulations with different counters have different ids. */
  lemma StepCurrentSimIdInjective(i: nat, j: nat)
    ensures StepCurrentSimId(i) == StepCurrentSimId(j) ==> i == j
  {
    PrefixCancel("step_current_sim_", NatToString(i), NatToString(j));
    NatToStringInjective(i, j);
  }

  /** Poisson simulations with different counters would have different ids. */
  lemma PoissonSimIdInjective(i: nat, j: nat)
    ensures PoissonSimId(i) == PoissonSimId(j) ==> i == j
  {
    PrefixCancel("poisson_stim_sim_", NatToString(i), NatToString(j));
    NatToStringInjective(i, j);
  }

  /** A column id gives back the segment key it names, so distinct keys give distinct columns. */
  lemma ColumnIdRoundTrip(segment: string)
    ensures |ColumnId(segment)| >= |ColumnPrefix| && ColumnSegment(ColumnId(segment)) == segment
  {
  }

  /** Connections with different counters refer to different generator instances. */
  lemma PoissonPreCellIdInjective(i: nat, j: nat)
    ensures PoissonPreCellId(i) == PoissonPreCellId(j) ==> i == j
  {
    AffixCancel("../" + GeneratorPopulation + "[", NatToString(i), NatToString(j), "]");
    NatToStringInjective(i, j);
  }
}
