/**
 * Orchestrating fbank feature extraction for the Spanish subsets
 * (egs/librispeech/ASR/local/compute_fbank_spanish.py).
 *
 * For each of train, dev and test in turn: skip the subset when its input
 * manifest is missing or its output manifest already exists; otherwise load
 * the cuts, filter them when a BPE model is given, speed-perturb the train
 * subset, compute and store 80-bin features, and write the output manifest.
 * The filesystem is the set of manifest files (path to cut set) plus the set
 * of feature storage paths written. lhotse's operations and `filter_cuts`
 * are the function fields of a `Toolkit`; the cut type `C` is left abstract.
 */
module ComputeFbank {
  import opened Wrappers

  const SrcDir: string := "data/manifests"
  const OutputDir: string := "data/fbank"
  const Prefix: string := "spa_cuts"
  const Suffix: string := "jsonl.gz"
  const NumMelBins: nat := 80
  const MaxLocalJobs: nat := 15
  const ExecutorJobs: nat := 80
  const DatasetParts: seq<string> := ["train", "dev", "test"]

  /** The operations the script delegates to lhotse and to `filter_cuts`. */
  datatype Toolkit<!C> = Toolkit(
    // filter_cuts(cut_set, sp), sp loaded from the BPE model at the given path
    filter: (seq<C>, string) -> seq<C>,
    // cut_set.perturb_speed(factor)
    perturb: (seq<C>, real) -> seq<C>,
    // cut_set.compute_and_store_features(storage_path, num_jobs, mel bins)
    extract: (seq<C>, string, nat, nat) -> seq<C>)

  /** The command-line options: `--bpe-model` (absent is `None`) and `--perturb-speed`. */
  datatype Options = Options(bpeModel: Option<string>, perturbSpeed: bool)

  /** `min(15, os.cpu_count())` raised `TypeError` because the CPU count is unknown. */
  datatype FbankError = CpuCountUnknown

  /** The filesystem as the loop sees it, and the subsets it has processed so far. */
  datatype RunState<C> = RunState(files: map<string, seq<C>>, done: seq<string>, stores: set<string>)

  /** `f"{prefix}_{subset}.{suffix}"` */
  function CutsFileName(subset: string): string
  {
    Prefix + "_" + subset + "." + Suffix
  }

  function InPath(subset: string): string
  {
    SrcDir + "/" + CutsFileName(subset)
  }

  function OutPath(subset: string): string
  {
    OutputDir + "/" + CutsFileName(subset)
  }

  function StoragePath(subset: string): string
  {
    OutputDir + "/spa_feats_" + subset
  }

  /** Python truthiness of `bpe_model`: neither `None` nor the empty string. */
  predicate Truthy(bpeModel: Option<string>): (r: bool)
    ensures bpeModel == None ==> !r
    ensures bpeModel == Some("") ==> !r
    ensures bpeModel.Some? && bpeModel.value != "" ==> r
  {
    bpeModel.Some? && bpeModel.value != []
  }

  /** `min(15, cpu_count)`: the local job count. */
  function NumJobs(cpuCount: nat): (r: nat)
    ensures r <= MaxLocalJobs && r <= cpuCount
    ensures r == MaxLocalJobs || r == cpuCount
  {
    if cpuCount < MaxLocalJobs then cpuCount else MaxLocalJobs
  }

  /** `num_jobs if ex is None else 80` */
  function JobsPassed(numJobs: nat, hasExecutor: bool): (r: nat)
    ensures hasExecutor ==> r == ExecutorJobs
    ensures !hasExecutor ==> r == numJobs
  {
    if hasExecutor then ExecutorJobs else numJobs
  }

  /** `cut_set + cut_set.perturb_speed(0.9) + cut_set.perturb_speed(1.1)` */
  function Perturbed<C>(cuts: seq<C>, tk: Toolkit<C>): seq<C>
  {
    cuts + tk.perturb(cuts, 0.9) + tk.perturb(cuts, 1.1)
  }

  /** The cuts handed to feature extraction: filtered iff a BPE model is given, perturbed iff train with perturbation on. */
  function PrepareCuts<C>(subset: string, cuts: seq<C>, opts: Options, tk: Toolkit<C>): (r: seq<C>)
    ensures !Truthy(opts.bpeModel) && (subset != "train" || !opts.perturbSpeed) ==> r == cuts
    ensures Truthy(opts.bpeModel) && (subset != "train" || !opts.perturbSpeed) ==>
              r == tk.filter(cuts, opts.bpeModel.value)
    ensures !Truthy(opts.bpeModel) && subset == "train" && opts.perturbSpeed ==>
              r == cuts + tk.perturb(cuts, 0.9) + tk.perturb(cuts, 1.1)
    ensures Truthy(opts.bpeModel) && subset == "train" && opts.perturbSpeed ==>
              var f := tk.filter(cuts, opts.bpeModel.value);
              r == f + tk.perturb(f, 0.9) + tk.perturb(f, 1.1)
  {
    var filtered := if Truthy(opts.bpeModel) then tk.filter(cuts, opts.bpeModel.value) else cuts;
    if subset == "train" && opts.perturbSpeed then Perturbed(filtered, tk) else filtered
  }

  /** The output manifest of a processed subset. */
  function Processed<C>(subset: string, cuts: seq<C>, opts: Options, jobs: nat, tk: Toolkit<C>): seq<C>
  {
    tk.extract(PrepareCuts(subset, cuts, opts, tk), StoragePath(subset), jobs, NumMelBins)
  }

  /** The subset is processed: its input exists and its output does not. */
  predicate ShouldProcess<C>(files: map<string, seq<C>>, subset: string)
  {
    InPath(subset) in files && OutPath(subset) !in files
  }

  /** One iteration of the subset loop. */
  function Step<C>(st: RunState<C>, subset: string, opts: Options, jobs: nat, tk: Toolkit<C>): RunState<C>
  {
    if ShouldProcess(st.files, subset) then
      RunState(st.files[OutPath(subset) := Processed(subset, st.files[InPath(subset)], opts, jobs, tk)],
               st.done + [subset], st.stores + {StoragePath(subset)})
    else st
  }

  /** The subset loop over `parts`, in order. */
  function Run<C>(st: RunState<C>, parts: seq<string>, opts: Options, jobs: nat, tk: Toolkit<C>): RunState<C>
    decreases |parts|
  {
    if parts == [] then st else Run(Step(st, parts[0], opts, jobs, tk), parts[1..], opts, jobs, tk)
  }

  /** The subsets of `parts` that are processed from `files`, in order. */
  function ToProcess<C>(files: map<string, seq<C>>, parts: seq<string>): seq<string>
  {
    if parts == [] then []
    else (if ShouldProcess(files, parts[0]) then [parts[0]] else []) + ToProcess(files, parts[1..])
  }

  predicate Distinct(parts: seq<string>)
  {
    forall i, j :: 0 <= i < j < |parts| ==> parts[i] != parts[j]
  }

  /** The manifests and feature stores on disk. */
  class Workspace<C> {
    var manifests: map<string, seq<C>>
    var featureStores: set<string>

    constructor (manifests: map<string, seq<C>>, featureStores: set<string>)
      ensures this.manifests == manifests && this.featureStores == featureStores
    {
      this.manifests := manifests;
      this.featureStores := featureStores;
    }

    /**
     * `compute_fbank_spanish`: returns the subsets processed, in order. The
     * new filesystem is the subset loop run from the old one.
     */
    method ComputeFbankSpanish(opts: Options, cpuCount: Option<nat>, hasExecutor: bool, tk: Toolkit<C>)
      returns (r: Result<seq<string>, FbankError>)
      modifies this
      ensures cpuCount.None? ==> r == Err(CpuCountUnknown) && unchanged(this)
      ensures cpuCount.Some? ==>
                var jobs := JobsPassed(NumJobs(cpuCount.value), hasExecutor);
                var final := Run(RunState(old(manifests), [], old(featureStores)), DatasetParts, opts, jobs, tk);
                r == Ok(final.done) && manifests == final.files && featureStores == final.stores
    {
      if cpuCount.None? {
        return Err(CpuCountUnknown);
      }
      var numJobs := NumJobs(cpuCount.value);
      var jobs := JobsPassed(numJobs, hasExecutor);
      ghost var start := RunState(manifests, [], featureStores);
      var done := [];
      for i := 0 to |DatasetParts|
        invariant Run(RunState(manifests, done, featureStores), DatasetParts[i..], opts, jobs, tk)
                  == Run(start, DatasetParts, opts, jobs, tk)
      {
        assert DatasetParts[i..][1..] == DatasetParts[i + 1..];
        done := ProcessSubset(DatasetParts[i], done, opts, jobs, tk);
      }
      r := Ok(done);
    }

    /** One iteration of the subset loop: skips the subset or computes and stores its features. */
    method ProcessSubset(subset: string, done: seq<string>, opts: Options, jobs: nat, tk: Toolkit<C>)
      returns (done': seq<string>)
      modifies this
      ensures RunState(manifests, done', featureStores)
              == Step(RunState(old(manifests), done, old(featureStores)), subset, opts, jobs, tk)
    {
      var inPath := InPath(subset);
      if inPath !in manifests {
        return done;
      }
      var outCutsPath := OutPath(subset);
      if outCutsPath in manifests {
        return done;
      }
      done' := done + [subset];
      var cutSet := manifests[inPath];
      if Truthy(opts.bpeModel) {
        cutSet := tk.filter(cutSet, opts.bpeModel.value);
      }
      if subset == "train" && opts.perturbSpeed {
        cutSet := cutSet + tk.perturb(cutSet, 0.9) + tk.perturb(cutSet, 1.1);
      }
      var storagePath := StoragePath(subset);
      cutSet := tk.extract(cutSet, storagePath, jobs, NumMelBins);
      featureStores := featureStores + {storagePath};
      manifests := manifests[outCutsPath := cutSet];
    }
  }

  // ---------------------------------------------------------------------
  // Properties
  // ---------------------------------------------------------------------

  /** Input and output manifests live in different directories. */
  lemma InPathIsNoOutPath(a: string, b: string)
    ensures InPath(a) != OutPath(b)
  {
    assert InPath(a)[5] == 'm' && OutPath(b)[5] == 'f';
  }

  /** Distinct subsets have distinct output manifests. */
  lemma OutPathInjective(a: string, b: string)
    requires OutPath(a) == OutPath(b)
    ensures a == b
  {
    var n := |OutputDir + "/" + Prefix + "_"|;
    assert |a| == |b|;
    assert a == OutPath(a)[n..n + |a|];
    assert b == OutPath(b)[n..n + |b|];
  }

  /** A step for another subset leaves this subset's input and output manifests as they were. */
  lemma StepKeepsOther<C>(st: RunState<C>, subset: string, other: string, opts: Options, jobs: nat, tk: Toolkit<C>)
    requires subset != other
    ensures var f := Step(st, subset, opts, jobs, tk).files;
            && (InPath(other) in f <==> InPath(other) in st.files)
            && (OutPath(other) in f <==> OutPath(other) in st.files)
            && (InPath(other) in f ==> f[InPath(other)] == st.files[InPath(other)])
            && (OutPath(other) in f ==> f[OutPath(other)] == st.files[OutPath(other)])
  {
    InPathIsNoOutPath(other, subset);
    if OutPath(other) == OutPath(subset) {
      OutPathInjective(other, subset);
    }
  }

  /**
   * The loop's effect on one subset `s` of `parts`: it is processed exactly when
   * its input exists and its output does not, its output is then the processed
   * input, and otherwise its output manifest is left untouched.
   */
  lemma {:induction false} RunEffectOnSubset<C>(st: RunState<C>, parts: seq<string>, s: string,
                                                opts: Options, jobs: nat, tk: Toolkit<C>)
    requires Distinct(parts) && s in parts
    ensures var f := Run(st, parts, opts, jobs, tk).files;
            && (ShouldProcess(st.files, s) ==>
                  OutPath(s) in f && f[OutPath(s)] == Processed(s, st.files[InPath(s)], opts, jobs, tk))
            && (!ShouldProcess(st.files, s) ==>
                  (OutPath(s) in f <==> OutPath(s) in st.files)
                  && (OutPath(s) in st.files ==> f[OutPath(s)] == st.files[OutPath(s)]))
    decreases |parts|
  {
    var next := Step(st, parts[0], opts, jobs, tk);
    if parts[0] == s {
      assert s !in parts[1..];
      RunLeavesAbsent(next, parts[1..], s, opts, jobs, tk);
      InPathIsNoOutPath(s, s);
    } else {
      StepKeepsOther(st, parts[0], s, opts, jobs, tk);
      RunEffectOnSubset(next, parts[1..], s, opts, jobs, tk);
    }
  }

  /** The loop never touches the manifests of a subset it does not visit. */
  lemma {:induction false} RunLeavesAbsent<C>(st: RunState<C>, parts: seq<string>, s: string,
                                              opts: Options, jobs: nat, tk: Toolkit<C>)
    requires s !in parts
    ensures var f := Run(st, parts, opts, jobs, tk).files;
            && (InPath(s) in f <==> InPath(s) in st.files)
            && (OutPath(s) in f <==> OutPath(s) in st.files)
            && (InPath(s) in f ==> f[InPath(s)] == st.files[InPath(s)])
            && (OutPath(s) in f ==> f[OutPath(s)] == st.files[OutPath(s)])
    decreases |parts|
  {
    if parts != [] {
      StepKeepsOther(st, parts[0], s, opts, jobs, tk);
      RunLeavesAbsent(Step(st, parts[0], opts, jobs, tk), parts[1..], s, opts, jobs, tk);
    }
  }

  /**
   * The subsets processed are those whose input exists and whose output does
   * not at the start, in the order of `parts`; each leaves a feature store.
   */
  lemma {:induction false} RunProcessesInOrder<C>(st: RunState<C>, parts: seq<string>,
                                                  opts: Options, jobs: nat, tk: Toolkit<C>)
    requires Distinct(parts)
    ensures Run(st, parts, opts, jobs, tk).done == st.done + ToProcess(st.files, parts)
    ensures Run(st, parts, opts, jobs, tk).stores
            == st.stores + (set s | s in ToProcess(st.files, parts) :: StoragePath(s))
    decreases |parts|
  {
    if parts != [] {
      var next := Step(st, parts[0], opts, jobs, tk);
      assert Distinct(parts[1..]) by {
        forall i, j | 0 <= i < j < |parts[1..]| ensures parts[1..][i] != parts[1..][j] {
          assert parts[1..][i] == parts[i + 1] && parts[1..][j] == parts[j + 1];
        }
      }
      assert parts[0] !in parts[1..] by {
        forall j | 0 <= j < |parts[1..]| ensures parts[1..][j] != parts[0] {
          assert parts[1..][j] == parts[j + 1];
        }
      }
      RunProcessesInOrder(next, parts[1..], opts, jobs, tk);
      ToProcessSameFiles(st, parts[0], parts[1..], opts, jobs, tk);
      var rest := ToProcess(st.files, parts[1..]);
      var now := if ShouldProcess(st.files, parts[0]) then [parts[0]] else [];
      assert ToProcess(st.files, parts) == now + rest;
      StoresOfConcat(now, rest);
      assert next.done == st.done + now;
      assert next.stores == st.stores + (set s | s in now :: StoragePath(s));
    }
  }

  lemma StoresOfConcat(a: seq<string>, b: seq<string>)
    ensures (set s | s in a + b :: StoragePath(s))
            == (set s | s in a :: StoragePath(s)) + (set s | s in b :: StoragePath(s))
  {
  }

  /** Which later subsets are processed does not depend on the step for an earlier, different subset. */
  lemma {:induction false} ToProcessSameFiles<C>(st: RunState<C>, first: string, parts: seq<string>,
                                                 opts: Options, jobs: nat, tk: Toolkit<C>)
    requires first !in parts
    ensures ToProcess(Step(st, first, opts, jobs, tk).files, parts) == ToProcess(st.files, parts)
    decreases |parts|
  {
    if parts != [] {
      StepKeepsOther(st, first, parts[0], opts, jobs, tk);
      ToProcessSameFiles(st, first, parts[1..], opts, jobs, tk);
    }
  }

  /** After a run no visited subset is left to process. */
  lemma {:induction false} RunLeavesNothingToDo<C>(st: RunState<C>, parts: seq<string>, s: string,
                                                   opts: Options, jobs: nat, tk: Toolkit<C>)
    requires Distinct(parts) && s in parts
    ensures !ShouldProcess(Run(st, parts, opts, jobs, tk).files, s)
  {
    RunEffectOnSubset(st, parts, s, opts, jobs, tk);
    RunLeavesAbsentInput(st, parts, s, opts, jobs, tk);
  }

  /** The loop never creates or removes an input manifest. */
  lemma {:induction false} RunLeavesAbsentInput<C>(st: RunState<C>, parts: seq<string>, s: string,
                                                   opts: Options, jobs: nat, tk: Toolkit<C>)
    ensures InPath(s) in Run(st, parts, opts, jobs, tk).files <==> InPath(s) in st.files
    decreases |parts|
  {
    if parts != [] {
      InPathIsNoOutPath(s, parts[0]);
      RunLeavesAbsentInput(Step(st, parts[0], opts, jobs, tk), parts[1..], s, opts, jobs, tk);
    }
  }

  /** A run over subsets none of which is to be processed changes nothing. */
  lemma {:induction false} RunIdleIsIdentity<C>(st: RunState<C>, parts: seq<string>,
                                                opts: Options, jobs: nat, tk: Toolkit<C>)
    requires forall s :: s in parts ==> !ShouldProcess(st.files, s)
    ensures Run(st, parts, opts, jobs, tk) == st
    decreases |parts|
  {
    if parts != [] {
      RunIdleIsIdentity(st, parts[1..], opts, jobs, tk);
    }
  }

  /**
   * Idempotent reruns: running the extraction a second time on the filesystem
   * the first run left writes nothing and processes no subset.
   */
  lemma RerunIsNoOp<C>(files: map<string, seq<C>>, stores: set<string>, opts: Options, jobs: nat, tk: Toolkit<C>)
    ensures var first := Run(RunState(files, [], stores), DatasetParts, opts, jobs, tk);
            Run(RunState(first.files, [], first.stores), DatasetParts, opts, jobs, tk)
              == RunState(first.files, [], first.stores)
  {
    var first := Run(RunState(files, [], stores), DatasetParts, opts, jobs, tk);
    assert Distinct(DatasetParts);
    forall s | s in DatasetParts ensures !ShouldProcess(first.files, s) {
      RunLeavesNothingToDo(RunState(files, [], stores), DatasetParts, s, opts, jobs, tk);
    }
    RunIdleIsIdentity(RunState(first.files, [], first.stores), DatasetParts, opts, jobs, tk);
  }

  /**
   * Speed perturbation keeps the original cuts first, then the 0.9 and the 1.1
   * copies; when `perturb_speed` keeps the number of cuts, the set triples.
   */
  lemma PerturbedLayout<C>(cuts: seq<C>, tk: Toolkit<C>)
    requires |tk.perturb(cuts, 0.9)| == |cuts| && |tk.perturb(cuts, 1.1)| == |cuts|
    ensures |Perturbed(cuts, tk)| == 3 * |cuts|
    ensures Perturbed(cuts, tk)[..|cuts|] == cuts
    ensures Perturbed(cuts, tk)[|cuts|..2 * |cuts|] == tk.perturb(cuts, 0.9)
    ensures Perturbed(cuts, tk)[2 * |cuts|..] == tk.perturb(cuts, 1.1)
  {
  }
}
