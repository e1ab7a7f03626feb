# Spanish ASR data preparation, modelled in Dafny

This project models five small Python scripts of an icefall recipe for a
Spanish speech-recognition corpus. It proves properties of what they compute.

- `prepare_spanish.dfy` (module `PrepareSpanish`) models building the manifests
  from a CSV index. Each row becomes one lhotse Recording and one Supervision
  with fields taken from the row or defaulted. The pair is routed by the row's
  `split` label to train, dev or test. Each split is then handed to lhotse and
  written to `<manifest_dir>/spa_cuts_<split>.jsonl.gz`.
- `fix_supervision_timing.dfy` (module `FixSupervisionTiming`) models the repair
  of cut manifests. A supervision ending more than a tolerance after its cut's
  end is truncated to end at the cut's end. The repair counts and reports what
  it fixed.
- `json_to_jsonl.dfy` (module `JsonToJsonl`) models converting a JSON array file
  to JSON Lines, one serialised element per line.
- `compute_fbank.dfy` (module `ComputeFbank`) models the fbank orchestration. The
  subsets train, dev and test are visited in turn over a filesystem of
  manifests. A subset is skipped when its input is missing or its output
  exists. Otherwise its cuts are filtered (with a BPE model), speed-perturbed
  (train only), extracted and saved.
- `model_config.dfy` (module `ModelConfig`) models the single pass over a
  checkpoint's `(key, tensor)` entries. The pass collects candidate encoder,
  feed-forward and kernel dimensions, a per-layer structure and a shape table.
  It then builds the suggested comma-joined command-line values.

How the scripts are modelled:

- Library calls the scripts make but do not define are function-valued
  parameters. These are `float(...)`, lhotse's `fix_manifests`,
  `CutSet.from_manifests`, `filter_cuts`, `perturb_speed` and
  `compute_and_store_features`, plus `json.loads` and `json.dumps`.
- Every loop of the scripts is a method with a loop. Its `ensures` ties the
  result to a recursive specification function, and the lemmas are proved
  about those functions.
- The feature-extraction filesystem is the state of the class
  `ComputeFbank.Workspace`.
- Durations are real numbers.
- Shared helpers are in separate modules:
  - `wrappers.dfy`: `Option` and `Result`.
  - `json_value.dfy`: a JSON value datatype.
  - `strings.dfy`: Python's `str.replace` for one character, `",".join`,
    `str.split` on one character, `str(n)` and a digit run.

Behaviour of the code worth noting, which the model keeps:

- The recording id keeps the file extension, and only `/` is replaced by `_`.
  As a result, two different paths can share an id; see
  `PrepareSpanish.RecordingIdCollides`.
- A non-empty `duration` or `start_time` that is not a number raises and aborts
  the whole run. It does not skip only that row.
- Rows with another split label are dropped silently, with no warning.
- No `sample_rate` or `num_samples` column is read.
- Feature extraction has no per-cut failure isolation.

`ComputeFbank.Workspace.ComputeFbankSpanish` also returns the subsets it
processed, in order, so that the order of the work can be stated. The script
itself returns nothing.

## Model

| member | source | states |
|---|---|---|
| PrepareSpanish.RecordingId | egs/librispeech/ASR/local/prepare_spanish.py:38 | The id has the path's length and no `/`: each `/` becomes `_` and every other character is kept in place. |
| PrepareSpanish.JoinPath | egs/librispeech/ASR/local/prepare_spanish.py:40 | `os.path.join(data_dir, rel)` ends with `rel`. It is `rel` itself when `rel` is absolute or `data_dir` is empty. Otherwise it starts with `data_dir`, and exactly one `/` separates the two: a `/` is inserted iff `data_dir` does not already end with one, and the part before `rel` ends with `/`. |
| PrepareSpanish.Route | egs/librispeech/ASR/local/prepare_spanish.py:60-68 | A row goes to train iff its label is "train", to dev iff it is "validation", and to test iff it is "test"; any other label routes nowhere. |
| PrepareSpanish.NumberOrZero | egs/librispeech/ASR/local/prepare_spanish.py:33-35 | An empty column gives 0.0, and a non-empty one gives its parsed value. A column that is non-empty and does not parse raises. The error value carries the column's name and its text; the column is the model's label for the failing field, since Python's `ValueError` names only the text. |
| PrepareSpanish.ConvertRow | egs/librispeech/ASR/local/prepare_spanish.py:30-57 | A row converts iff both numeric columns are empty or parse. On failure the error names `duration` first, then `start_time`. On success: the id is the path with `/` replaced by `_`, and the supervision's id and recording id are that id. Sampling rate is 16000, with 1 channel and one file source on channel 0 at the joined path. Durations are equal, and an empty duration or start becomes 0.0. Text comes from the row, language is "Spanish", and the speaker is the row's speaker or "unknown". |
| PrepareSpanish.AppendToSplit | egs/librispeech/ASR/local/prepare_spanish.py:59-68 | The if/elif chain appends the pair to the two lists of train, dev (label "validation") or test. Any other label leaves all six lists as they were. |
| PrepareSpanish.BuildSplits | egs/librispeech/ASR/local/prepare_spanish.py:23-68 | The row loop leaves exactly the six lists of the specification `Prepare`, or the error of the row it aborts on. |
| PrepareSpanish.PrepareManifests | egs/librispeech/ASR/local/prepare_spanish.py:19-88 | Nothing is written iff some row aborts the run, and the error is passed through. Otherwise exactly the three files `spa_cuts_{train,dev,test}.jsonl.gz` under `manifest_dir` are written. Each holds `from_manifests(fix_manifests(...))` of its split's lists. |
| PrepareSpanish.PrepareSucceedsIff | egs/librispeech/ASR/local/prepare_spanish.py:29-35 | The run succeeds iff every row's `duration` and `start_time` are empty or parse. |
| PrepareSpanish.PrepareFailsAtFirstBadRow | egs/librispeech/ASR/local/prepare_spanish.py:29-35 | A failing run reports the error of the first row whose numbers do not parse. |
| PrepareSpanish.PrepareErrorPersists | egs/librispeech/ASR/local/prepare_spanish.py:29-35 | Once a row raises, the rows after it do not change the outcome. |
| PrepareSpanish.PrepareSplitContents | egs/librispeech/ASR/local/prepare_spanish.py:59-68 | After a successful run, split `k` holds one recording and one supervision per row routed to `k`. The two lists stay index-aligned and follow CSV order, and entry `j` is the conversion of the `j`-th such row. |
| PrepareSpanish.PickMembership | egs/librispeech/ASR/local/prepare_spanish.py:60-68 | A row is in split `k` iff it is a row of the CSV whose label routes to `k`. |
| PrepareSpanish.PickPartition | egs/librispeech/ASR/local/prepare_spanish.py:60-68 | The three splits and the dropped rows together count every CSV row exactly once. |
| PrepareSpanish.SplitsDisjoint | egs/librispeech/ASR/local/prepare_spanish.py:60-68 | No row lands in two splits. |
| PrepareSpanish.RecordingIdKeepsSuffix | egs/librispeech/ASR/local/prepare_spanish.py:37-38 | The id keeps the file name, extension included, and contains no `/`. |
| PrepareSpanish.RecordingIdCollides | egs/librispeech/ASR/local/prepare_spanish.py:37-38 | The id meant to be unique is not injective: "a/b.wav" and "a_b.wav" share it. |
| PrepareSpanish.ManifestPathsDistinct | egs/librispeech/ASR/local/prepare_spanish.py:86-88 | The three output files are pairwise distinct for any manifest directory. |
| FixSupervisionTiming.FixSupervision | egs/spanish/ASR/fix-supervision-timing.py:33-38 | A supervision ending after the cut's duration plus the tolerance is truncated to end exactly at the cut's end. Any other supervision is unchanged. `start` and the other fields never change. With tolerance >= 0 the result is within bounds. |
| FixSupervisionTiming.FixCut | egs/spanish/ASR/fix-supervision-timing.py:28-44 | A repaired cut keeps its id, its duration and its other fields. It keeps whether it has supervisions, and how many. Supervision `j` of the result is the repair of supervision `j` of the input against the cut's duration. |
| FixSupervisionTiming.FixOneCut | egs/spanish/ASR/fix-supervision-timing.py:28-47 | The per-supervision loop produces the repaired cut. Its count is the number of late supervisions, and `fixed_this_cut` holds iff that count is positive. |
| FixSupervisionTiming.FixSupervisions | egs/spanish/ASR/fix-supervision-timing.py:8-53 | One output cut per input line, in input order, each the repaired input. `total_count` is the number of lines. `fixed_count` is the number of late supervisions over all cuts. The reported ids are those of the cuts with a late supervision, in order. |
| FixSupervisionTiming.RunScript | egs/spanish/ASR/fix-supervision-timing.py:55-61 | With fewer than two arguments: status 1 and nothing written. Otherwise: status 0 and the cuts repaired with tolerance 0.001. |
| FixSupervisionTiming.ViolationCountZero | egs/spanish/ASR/fix-supervision-timing.py:36-44 | The count of late supervisions is zero iff no supervision is late. |
| FixSupervisionTiming.FixCutWithinBounds | egs/spanish/ASR/fix-supervision-timing.py:36-38 | With tolerance >= 0, every supervision of a repaired cut ends within the cut plus the tolerance. |
| FixSupervisionTiming.FixCutWithinBoundsUnchanged | egs/spanish/ASR/fix-supervision-timing.py:28-41 | A cut that is within bounds, including one with no or empty supervisions, is written unchanged. |
| FixSupervisionTiming.SecondPassFixesNothing | egs/spanish/ASR/fix-supervision-timing.py:8-53 | With tolerance >= 0, a second pass over the output fixes no supervision and changes no cut. |
| FixSupervisionTiming.FixedCountCoversReportedCuts | egs/spanish/ASR/fix-supervision-timing.py:43-47 | `fixed_count` counts supervisions, so it is at least the number of reported cuts. It is zero iff no cut is reported. |
| JsonToJsonl.ConvertJsonToJsonl | egs/spanish/ASR/json_to_jsonl.py:8-36 | A failing `json.load` raises and writes nothing. A non-array gives False and writes nothing. An array gives True, and write `i` is `dumps(data[i]) + "\n"`, one per element and in order (none for an empty array). The output suffix selects only the codec, not the content. The input is taken as its decompressed text, so the input suffix is not represented. |
| JsonToJsonl.RunScript | egs/spanish/ASR/json_to_jsonl.py:38-44 | Status 0 iff two paths are given, the input parses and it is an array; the lines are then those of the conversion. Otherwise status 1 and nothing written. |
| JsonToJsonl.ConcatIsUnlines | egs/spanish/ASR/json_to_jsonl.py:25-33 | The written chunks form the text of the serialisations, one per line. |
| JsonToJsonl.RoundTrip | egs/spanish/ASR/json_to_jsonl.py:25-33 | Suppose `loads` inverts `dumps` on the elements and no serialisation holds a newline. Then the output has `len(data)` lines, and reading it back line by line gives the array element by element. |
| ComputeFbank.NumJobs | egs/librispeech/ASR/local/compute_fbank_spanish.py:72 | `min(15, cpu_count)` is at most both and equals one of them. |
| ComputeFbank.JobsPassed | egs/librispeech/ASR/local/compute_fbank_spanish.py:135 | 80 jobs are passed when an executor is present, and the local job count otherwise. |
| ComputeFbank.Truthy | egs/librispeech/ASR/local/compute_fbank_spanish.py:78 | `if bpe_model:` is false for `None` and for the empty string, and true for any other path. |
| ComputeFbank.PrepareCuts | egs/librispeech/ASR/local/compute_fbank_spanish.py:113-122 | The cuts handed to extraction are filtered iff `bpe_model` is truthy. Only for train with `perturb_speed` do they become the (filtered) cuts, then their 0.9 copy, then their 1.1 copy. Otherwise they are the (filtered) cuts. |
| ComputeFbank.Workspace.ComputeFbankSpanish | egs/librispeech/ASR/local/compute_fbank_spanish.py:56-142 | An unknown CPU count raises before anything is written. Otherwise the new manifests and feature stores are the subset loop `Run` over train, dev and test, with 80 jobs when an executor is present and `min(15, cpu_count)` otherwise. |
| ComputeFbank.Workspace.ProcessSubset | egs/librispeech/ASR/local/compute_fbank_spanish.py:94-141 | One iteration of the loop is exactly one `Step`. It skips a subset without input or with an existing output. Otherwise it filters iff `bpe_model` is truthy, perturbs iff train with `perturb_speed`, extracts to `data/fbank/spa_feats_<subset>` with 80 mel bins and saves to `data/fbank/spa_cuts_<subset>.jsonl.gz`. |
| ComputeFbank.InPathIsNoOutPath | egs/librispeech/ASR/local/compute_fbank_spanish.py:96-104 | No input manifest path is an output manifest path. |
| ComputeFbank.OutPathInjective | egs/librispeech/ASR/local/compute_fbank_spanish.py:96-104 | Distinct subsets have distinct output manifests. |
| ComputeFbank.StepKeepsOther | egs/librispeech/ASR/local/compute_fbank_spanish.py:94-141 | Processing one subset leaves every other subset's input and output manifests as they were. |
| ComputeFbank.RunEffectOnSubset | egs/librispeech/ASR/local/compute_fbank_spanish.py:94-141 | A visited subset is processed iff its input exists and its output does not, and its output is then the processed input. Otherwise its output manifest is untouched. |
| ComputeFbank.RunLeavesAbsent | egs/librispeech/ASR/local/compute_fbank_spanish.py:94-141 | The manifests of a subset the loop does not visit are untouched. |
| ComputeFbank.RunProcessesInOrder | egs/librispeech/ASR/local/compute_fbank_spanish.py:94-141 | The processed subsets are exactly those to be processed at the start, in visiting order. Each adds its feature store. |
| ComputeFbank.ToProcessSameFiles | egs/librispeech/ASR/local/compute_fbank_spanish.py:99-107 | Processing one subset does not change which other subsets are to be processed. |
| ComputeFbank.RunLeavesNothingToDo | egs/librispeech/ASR/local/compute_fbank_spanish.py:99-107 | After the loop, no visited subset is left to process. |
| ComputeFbank.RunLeavesAbsentInput | egs/librispeech/ASR/local/compute_fbank_spanish.py:97-101 | The loop never creates or removes an input manifest. |
| ComputeFbank.RunIdleIsIdentity | egs/librispeech/ASR/local/compute_fbank_spanish.py:99-107 | When no subset is to be processed, the loop changes nothing. |
| ComputeFbank.RerunIsNoOp | egs/librispeech/ASR/local/compute_fbank_spanish.py:104-107 | A second run on the filesystem the first run left writes nothing and processes no subset. |
| ComputeFbank.PerturbedLayout | egs/librispeech/ASR/local/compute_fbank_spanish.py:120-122 | The perturbed set is the original cuts, then the 0.9 copy, then the 1.1 copy. It is three times as long when perturbation keeps the length. |
| ModelConfig.LayerIndex | egs/spanish/ASR/extract_model_config.py:56-58 | The layer index comes from the leftmost position where `encoder.encoders.<digits>.` matches. No index means no position matches. |
| ModelConfig.LayerIndexOfName | egs/spanish/ASR/extract_model_config.py:56-58 | A key `encoder.encoders.<n>.<rest>` has layer index `n`. |
| ModelConfig.UpdateLayer | egs/spanish/ASR/extract_model_config.py:59-70 | It raises exactly on a rank below 2 in the linear1, linear2, q_proj and out_proj arms, or on `shape[0] == 0` for out_proj. The error value carries the entry's key as the model's label for the failing entry; Python's `IndexError` and `ZeroDivisionError` name no key. Otherwise the arm taken writes its fields of layer `n`: `ff_in = shape[1]` and `ff_out = shape[0]`, `ff_hidden = shape[1]`, `attn_dim = shape[1]`, `num_heads = shape[1] // shape[0]` or `kernel_size = shape[2]`. The other fields and all other layers are kept. A key that takes no arm changes nothing. Only `attention_dims` grows, by `shape[1]`, and only for q_proj. |
| ModelConfig.StepLayers | egs/spanish/ASR/extract_model_config.py:55-70 | One entry changes a field group of layer `n` only if it takes that arm for `n`, and then to the value the arm writes. A layer appears only when the entry writes it. |
| ModelConfig.AnalyzeLayerKeys | egs/spanish/ASR/extract_model_config.py:55-70 | After the pass, a layer exists in `layer_structure` iff some tensor entry with that layer index takes an arm of the chain. |
| ModelConfig.AnalyzeLayers | egs/spanish/ASR/extract_model_config.py:55-70 | After the pass, each field group of layer `n` holds what the last entry taking that arm for `n` wrote, since a later key overwrites an earlier one. It is empty if no entry did. For example, `num_heads` is `shape[1] // shape[0]` of the layer's last out_proj weight. |
| ModelConfig.AnalyzeCheckpoint | egs/spanish/ASR/extract_model_config.py:26-70 | The loop over the entries computes exactly the specification `Analyze`, including the error of the entry it stops on. |
| ModelConfig.ProcessEntry | egs/spanish/ASR/extract_model_config.py:27-70 | The loop body for one entry is exactly one `Step`. |
| ModelConfig.EncoderDimsOf | egs/spanish/ASR/extract_model_config.py:34-39 | An entry contributes to `encoder_dims` only when it is a 2-D tensor under an encoder-layer weight key. It contributes exactly those of its dimensions that lie in (100, 1000). |
| ModelConfig.FeedforwardDimsOf | egs/spanish/ASR/extract_model_config.py:42-46 | An entry contributes to `feedforward_dims` only when it is a tensor under a feed-forward linear weight key. It contributes exactly its dimensions above 500. |
| ModelConfig.KernelSizesOf | egs/spanish/ASR/extract_model_config.py:49-53 | An entry contributes to `kernel_sizes` iff it is a tensor of rank at least 3 under a convolution weight key whose third dimension exceeds 1. It then contributes just that dimension. |
| ModelConfig.AddEncoderDims | egs/spanish/ASR/extract_model_config.py:37-39 | The inner loop adds exactly the dims in (100, 1000). |
| ModelConfig.AddFeedforwardDims | egs/spanish/ASR/extract_model_config.py:44-46 | The inner loop adds exactly the dims above 500. |
| ModelConfig.StepEffect | egs/spanish/ASR/extract_model_config.py:27-53 | A non-tensor entry leaves the shape table alone. A tensor records its shape, and the three filtered sets grow by exactly the entry's contribution. |
| ModelConfig.AnalyzeErrorPersists | egs/spanish/ASR/extract_model_config.py:26-70 | Once an entry raises, the whole pass raises that error. |
| ModelConfig.AnalyzeSound | egs/spanish/ASR/extract_model_config.py:12-70 | After the pass: `encoder_dims` lies in (100, 1000), `feedforward_dims` is above 500 and `kernel_sizes` is above 1. The `num_heads` set stays empty. Every recorded `attn_dim` is in `attention_dims`. |
| ModelConfig.AnalyzeEncoderDims | egs/spanish/ASR/extract_model_config.py:33-39 | After the pass, `encoder_dims` is exactly the union of what the entries contribute. |
| ModelConfig.AnalyzeFeedforwardDims | egs/spanish/ASR/extract_model_config.py:41-46 | After the pass, `feedforward_dims` is exactly the union of what the entries contribute. |
| ModelConfig.AnalyzeKernelSizes | egs/spanish/ASR/extract_model_config.py:48-53 | After the pass, `kernel_sizes` is exactly the union of what the entries contribute. |
| ModelConfig.AnalyzeSets | egs/spanish/ASR/extract_model_config.py:33-53 | A value is in `encoder_dims`, `feedforward_dims` or `kernel_sizes` iff some entry contributes it under the key tests and range filters. |
| ModelConfig.AnalyzeTensorShapes | egs/spanish/ASR/extract_model_config.py:26-31 | `tensor_shapes` has exactly the keys of the tensor entries. Each maps to the shape of the last tensor entry with that key. |
| ModelConfig.SortedSeq | egs/spanish/ASR/extract_model_config.py:104-116 | `sorted(s)` holds exactly the elements of the set, strictly increasing. |
| ModelConfig.Decimals | egs/spanish/ASR/extract_model_config.py:106 | `[str(d) for d in ds]` has one decimal string per value. |
| ModelConfig.DecimalsReadBack | egs/spanish/ASR/extract_model_config.py:106 | Every decimal string is all digits and reads back as its value. |
| ModelConfig.Suggestion | egs/spanish/ASR/extract_model_config.py:106 | Joining nothing gives the empty string. Otherwise splitting the result on commas gives the decimals of the sorted values, repeated `times` times. |
| ModelConfig.Suggest | egs/spanish/ASR/extract_model_config.py:104-119 | The encoder suggestion exists iff some encoder dim is in (300, 500). The kernel suggestion exists iff a kernel size was found. The feed-forward suggestion exists iff there are at least two feed-forward dims. The encoder suggestion splits on commas into the sorted dims in (300, 500), repeated 6 times. The kernel suggestion splits into the sorted kernel sizes, repeated 6 times. The feed-forward suggestion splits into the sorted feed-forward dims, once. |
| ModelConfig.SuggestionFields | egs/spanish/ASR/extract_model_config.py:104-119 | Splitting a suggestion on commas gives the decimals of the sorted values, repeated (6 times for encoder and kernel, once for feed-forward). It has `|values| * times` fields. |

## Left out

- lhotse's operations are function parameters whose behaviour is not modelled. These are `RecordingSet.from_recordings`, `SupervisionSet.from_segments`, `fix_manifests`, `CutSet.from_manifests`, `perturb_speed`, `compute_and_store_features`, the `Fbank` extractor and the Lilcom storage writer. Their own failures are not modelled either.
- `filter_cuts` and sentencepiece are one opaque filter function. A BPE model that fails to load or import is not modelled.
- FixSupervisionTiming.FixSupervision: `start` and `duration` are reals. Whether the input wrote them as integers or floats, which `json.dumps` writes back differently, is not represented, and a `NaN` or `Infinity` start or duration is outside the model.
- `float(...)` is an opaque partial parse. Durations are exact reals, so IEEE rounding in `cut.duration - start` is not modelled.
- PrepareSpanish.NumberOrZero: `float("inf")` and `float("nan")` succeed in Python but have no real value. A parser that returns a real cannot represent them, so rows carrying them are outside the model.
- File I/O is left out:
  - The CSV reader: rows are given as records.
  - A missing CSV column (a `KeyError`).
  - gzip.
  - Opening, reading and writing files, and their failures.
  - `mkdir`.
  - `torch.load` and the hard-coded checkpoint path.
- FixSupervisionTiming.FixSupervisions: takes the cuts already parsed, and the cut is rebuilt from its parsed fields, so JSON member order is not modelled. These cases are not modelled:
  - A line that is not JSON.
  - A cut without `duration` or `id`.
  - A `supervisions` member that is present but null (a `TypeError` on `len`).
  - A supervision without a numeric `start` or `duration` (a `KeyError` or `TypeError` at line 33).
  - A line whose JSON value is not an object: an array is written back unchanged, and a string containing "supervisions" raises at line 28. The `Cut` record represents neither.
- argparse, `logging` and `print` output are left out. This includes every progress message, the usage text and the unused `--nj` option.
- ComputeFbank.Workspace.ComputeFbankSpanish: `get_executor()` is a boolean parameter (is an executor present). The worker pool, `torch.set_num_threads` and the concurrency of extraction are not modelled.
- ComputeFbank.Workspace.ComputeFbankSpanish: `CutSet.from_file` failing on an existing input is not modelled. The script would raise and abort.
- ModelConfig.LayerIndex: `\d` is ASCII digits only; Python's `re` also accepts other Unicode decimal digits. Leading zeros read as in `int(...)`.
- The rest of extract_model_config.py is output only and is left out: lines 73-101 and 121-150, the `model_args`/`model_config` listings, the encoder/decoder/joiner dictionaries and the `model_config.json` dump. The shape table and the layer structure those lines print are modelled.
- `layer_structure` is a map to records of optional fields, so the insertion order of Python's nested dictionaries is not modelled.
