/**
 * The simulation manifests (`self.recorder`): dicts from a simulation id to the
 * LEMS file that describes it, filled by the fi-curve loop and by the Poisson
 * loop. Also, beside each as-written manifest, the manifest the loop evidently
 * meant to build.
 */
module Manifests {
  import opened Common
  import opened Dicts
  import opened Naming

  /** One value of the manifest. */
  datatype ManifestEntry =
      /** `{"simfile": f, "segment": "0", "current": cr}` */
    | StepCurrentEntry(simfile: string, segment: string, current: real)
      /** `{"simfile": f}` */
    | PoissonEntry(simfile: string)

  // ---- fi curves ----

  /** `step_current_sim_0 .. step_current_sim_{n-1}` */
  function StepCurrentIds(n: nat): seq<string>
  {
    seq(n, k requires 0 <= k < n => StepCurrentSimId(k))
  }

  /** `recorder[f"step_current_sim_{k}"] = {...}` for the `k`-th current, `k` counting from 0. */
  function FiAssignments(currents: seq<real>, files: seq<string>): seq<(string, ManifestEntry)>
    requires |files| == |currents|
  {
    seq(|currents|, k requires 0 <= k < |currents| => (StepCurrentSimId(k), StepCurrentEntry(files[k], "0", currents[k])))
  }

  /**
   * The fi manifest as the loop builds it: the sweep `sweep` (the linspace of the
   * configured range) is simulated only when the configured list `explicit` is
   * empty; otherwise nothing is simulated and the manifest stays `{}`.
   */
  function FiManifest(explicit: seq<real>, sweep: seq<real>, files: seq<string>): Dict<string, ManifestEntry>
    requires |files| == |sweep|
  {
    if |explicit| == 0 then PutAll(Empty(), FiAssignments(sweep, files)) else Empty()
  }

  /** Step-current ids for different counters differ. */
  lemma StepCurrentIdsDistinct(n: nat)
    ensures Distinct(StepCurrentIds(n))
  {
    forall i, j | 0 <= i < j < n ensures StepCurrentSimId(i) != StepCurrentSimId(j) {
      StepCurrentSimIdInjective(i, j);
    }
  }

  /**
   * Simulating `currents` in order gives one entry per current, under
   * `step_current_sim_k` for the `k`-th, in that order, each recording the soma
   * `"0"`, the current and the file of its simulation.
   */
  lemma FiAssignmentsManifest(currents: seq<real>, files: seq<string>, k: nat)
    requires |files| == |currents| && k < |currents|
    ensures PutAll(Empty(), FiAssignments(currents, files)).keys == StepCurrentIds(|currents|)
    ensures StepCurrentSimId(k) in PutAll(Empty(), FiAssignments(currents, files)).entries
    ensures PutAll(Empty(), FiAssignments(currents, files)).entries[StepCurrentSimId(k)] ==
            StepCurrentEntry(files[k], "0", currents[k])
  {
    var ps := FiAssignments(currents, files);
    assert KeysOf(ps) == StepCurrentIds(|currents|);
    StepCurrentIdsDistinct(|currents|);
    PutAllDistinctKeys(ps);
    PutAllLastWins(Empty(), ps, k);
  }

  /** The fi manifest lists the sweep's ids in order when no explicit list is configured, and nothing otherwise. */
  lemma FiManifestKeys(explicit: seq<real>, sweep: seq<real>, files: seq<string>)
    requires |files| == |sweep|
    ensures FiManifest(explicit, sweep, files).keys == if |explicit| == 0 then StepCurrentIds(|sweep|) else []
  {
    if |explicit| == 0 {
      var ps := FiAssignments(sweep, files);
      assert KeysOf(ps) == StepCurrentIds(|sweep|);
      StepCurrentIdsDistinct(|sweep|);
      PutAllDistinctKeys(ps);
    }
  }

  /** The fi manifest the loop was evidently meant to build: the explicit currents when given, else the sweep. */
  function IntendedFiManifest(explicit: seq<real>, sweep: seq<real>, files: seq<string>): Dict<string, ManifestEntry>
    requires |files| == |if |explicit| == 0 then sweep else explicit|
  {
    PutAll(Empty(), FiAssignments(if |explicit| == 0 then sweep else explicit, files))
  }

  /** The intended manifest has one entry per configured current, in order. */
  lemma IntendedFiManifestShape(explicit: seq<real>, sweep: seq<real>, files: seq<string>, k: nat)
    requires |explicit| > 0 && |files| == |explicit| && k < |explicit|
    ensures IntendedFiManifest(explicit, sweep, files).keys == StepCurrentIds(|explicit|)
    ensures StepCurrentSimId(k) in IntendedFiManifest(explicit, sweep, files).entries
    ensures IntendedFiManifest(explicit, sweep, files).entries[StepCurrentSimId(k)] == StepCurrentEntry(files[k], "0", explicit[k])
  {
    FiAssignmentsManifest(explicit, files, k);
  }

  /**
   * As written, a configuration that lists its currents gets an empty manifest
   * although the intended manifest would have one entry per listed current.
   */
  lemma FiManifestIgnoresExplicitCurrents(explicit: seq<real>, sweep: seq<real>, sweepFiles: seq<string>, files: seq<string>)
    requires |explicit| > 0 && |sweepFiles| == |sweep| && |files| == |explicit|
    ensures FiManifest(explicit, sweep, sweepFiles).keys == []
    ensures |IntendedFiManifest(explicit, sweep, files).keys| == |explicit|
  {
    FiAssignmentsManifest(explicit, files, 0);
  }

  // ---- Poisson inputs ----

  /** `recorder[f"poisson_stim_sim_{counter}"] = {"simfile": f}` for each iteration's file, the counter never changing. */
  function PoissonAssignments(counter: nat, files: seq<string>): seq<(string, ManifestEntry)>
  {
    seq(|files|, i requires 0 <= i < |files| => (PoissonSimId(counter), PoissonEntry(files[i])))
  }

  /** The Poisson manifest as the loop builds it: `sim_counter` is reset to 0 and never incremented. */
  function PoissonManifest(files: seq<string>): Dict<string, ManifestEntry>
  {
    PutAll(Empty(), PoissonAssignments(0, files))
  }

  /**
   * With a counter that never moves, every iteration overwrites the same key:
   * the manifest has the one key `poisson_stim_sim_0` after at least one
   * iteration (none otherwise), holding the LAST iteration's file.
   */
  lemma {:induction false} PoissonManifestCollapses(files: seq<string>)
    ensures PoissonManifest(files).keys == if |files| == 0 then [] else [PoissonSimId(0)]
    ensures |files| > 0 ==> PoissonSimId(0) in PoissonManifest(files).entries &&
                            PoissonManifest(files).entries[PoissonSimId(0)] == PoissonEntry(files[|files| - 1])
    decreases |files|
  {
    if |files| > 0 {
      var init := files[..|files| - 1];
      assert PoissonAssignments(0, files)[..|files| - 1] == PoissonAssignments(0, init);
      PoissonManifestCollapses(init);
    }
  }

  /** `poisson_stim_sim_0 .. poisson_stim_sim_{n-1}` */
  function PoissonIds(n: nat): seq<string>
  {
    seq(n, i requires 0 <= i < n => PoissonSimId(i))
  }

  /** The Poisson manifest the loop was evidently meant to build: iteration `i` under `poisson_stim_sim_{i}`. */
  function IntendedPoissonManifest(files: seq<string>): Dict<string, ManifestEntry>
  {
    PutAll(Empty(), seq(|files|, i requires 0 <= i < |files| => (PoissonSimId(i), PoissonEntry(files[i]))))
  }

  /** The intended manifest keeps every iteration, in order, each under its own id. */
  lemma IntendedPoissonManifestShape(files: seq<string>, i: nat)
    requires i < |files|
    ensures IntendedPoissonManifest(files).keys == PoissonIds(|files|)
    ensures PoissonSimId(i) in IntendedPoissonManifest(files).entries
    ensures IntendedPoissonManifest(files).entries[PoissonSimId(i)] == PoissonEntry(files[i])
  {
    var ps := seq(|files|, i requires 0 <= i < |files| => (PoissonSimId(i), PoissonEntry(files[i])));
    assert KeysOf(ps) == PoissonIds(|files|);
    forall a, b | 0 <= a < b < |files| ensures PoissonSimId(a) != PoissonSimId(b) {
      PoissonSimIdInjective(a, b);
    }
    PutAllDistinctKeys(ps);
    PutAllLastWins(Empty(), ps, i);
  }

  /** As written, two or more iterations leave one entry where the intended manifest keeps all of them. */
  lemma PoissonManifestLosesIterations(files: seq<string>)
    requires |files| >= 2
    ensures |PoissonManifest(files).keys| == 1
    ensures |IntendedPoissonManifest(files).keys| == |files|
  {
    PoissonManifestCollapses(files);
    IntendedPoissonManifestShape(files, 0);
  }

  // ---- the loops, one assignment at a time ----

  lemma FiAssignmentsSnoc(currents: seq<real>, files: seq<string>, k: nat)
    requires |files| == |currents| && k < |currents|
    ensures FiAssignments(currents[..k + 1], files[..k + 1]) ==
            FiAssignments(currents[..k], files[..k]) + [(StepCurrentSimId(k), StepCurrentEntry(files[k], "0", currents[k]))]
  {
  }

  lemma PoissonAssignmentsSnoc(counter: nat, files: seq<string>, i: nat)
    requires i < |files|
    ensures PoissonAssignments(counter, files[..i + 1]) ==
            PoissonAssignments(counter, files[..i]) + [(PoissonSimId(counter), PoissonEntry(files[i]))]
  {
  }
}
