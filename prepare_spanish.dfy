/**
 * Building the Spanish corpus manifests from the CSV index
 * (egs/librispeech/ASR/local/prepare_spanish.py).
 *
 * Every CSV row becomes one Recording and one Supervision sharing an id derived
 * from the audio path; the pair is appended to the train, dev or test lists
 * according to the row's split label, and each split is finally handed to
 * lhotse and written to `<manifest_dir>/spa_cuts_<split>.jsonl.gz`.
 * `float(...)`, lhotse's `fix_manifests`, `CutSet.from_manifests` and the
 * file writes are outside the model: the first three are function parameters.
 */
module PrepareSpanish {
  import opened Wrappers
  import opened Strings

  /** One row of the CSV index, with the columns the script reads. */
  datatype Row = Row(audioPath: string, text: string, split: string,
                     duration: string, speaker: string, startTime: string)

  datatype AudioSource = AudioSource(kind: string, channels: seq<nat>, source: string)

  datatype Recording = Recording(id: string, samplingRate: nat, numChannels: nat,
                                 duration: real, sources: seq<AudioSource>)

  datatype Supervision = Supervision(id: string, recordingId: string, start: real, duration: real,
                                     text: string, language: string, speaker: string)

  /** `float(text)` raised `ValueError` on the named column; the whole run aborts. */
  datatype PrepError = BadNumber(column: string, text: string)

  /** Python's `float(text)`: `None` where it raises. */
  type FloatParser = string -> Option<real>

  datatype SplitName = Train | Dev | Test

  /** The recordings and supervisions gathered for one split, index-aligned. */
  datatype Part = Part(recordings: seq<Recording>, supervisions: seq<Supervision>)

  datatype Splits = Splits(train: Part, dev: Part, test: Part)
  {
    function Get(k: SplitName): Part
    {
      match k
      case Train => train
      case Dev => dev
      case Test => test
    }
  }

  const SamplingRate: nat := 16000
  const UnknownSpeaker: string := "unknown"
  const Language: string := "Spanish"
  const EmptySplits: Splits := Splits(Part([], []), Part([], []), Part([], []))

  /** The id of a row's recording: the relative path with every `/` replaced by `_`. */
  function RecordingId(audioPath: string): (r: string)
    ensures |r| == |audioPath| && '/' !in r
    ensures forall i :: 0 <= i < |audioPath| ==> r[i] == (if audioPath[i] == '/' then '_' else audioPath[i])
  {
    ReplaceChar(audioPath, '/', '_')
  }

  /** Python's `os.path.join(dir, rel)` on POSIX paths. */
  function JoinPath(dir: string, rel: string): (r: string)
    ensures EndsWith(r, rel)
    ensures !IsPrefix("/", rel) ==> IsPrefix(dir, r)
    ensures IsPrefix("/", rel) ==> r == rel
    ensures dir == [] ==> r == rel
    ensures !IsPrefix("/", rel) && dir != [] ==>
              |r| - |rel| == |dir| + (if EndsWith(dir, "/") then 0 else 1) && EndsWith(r[..|r| - |rel|], "/")
  {
    if IsPrefix("/", rel) then rel
    else if dir == [] || EndsWith(dir, "/") then dir + rel
    else dir + "/" + rel
  }

  /** The split a label routes the row to; labels other than these three are dropped. */
  function Route(splitLabel: string): (r: Option<SplitName>)
    ensures r == Some(Train) <==> splitLabel == "train"
    ensures r == Some(Dev) <==> splitLabel == "validation"
    ensures r == Some(Test) <==> splitLabel == "test"
  {
    if splitLabel == "train" then Some(Train)
    else if splitLabel == "validation" then Some(Dev)
    else if splitLabel == "test" then Some(Test)
    else None
  }

  /** `float(text) if text else 0.0` */
  function NumberOrZero(column: string, text: string, parse: FloatParser): (r: Result<real, PrepError>)
    ensures r.Ok? <==> text == [] || parse(text).Some?
    ensures r.Ok? ==> r.value == if text == [] then 0.0 else parse(text).value
    ensures r.Err? ==> r.error == BadNumber(column, text)
  {
    if text == [] then Ok(0.0)
    else match parse(text)
      case Some(v) => Ok(v)
      case None => Err(BadNumber(column, text))
  }

  /** Both numeric columns of the row are empty or parse as floats. */
  predicate RowParses(row: Row, parse: FloatParser)
  {
    && (row.duration == [] || parse(row.duration).Some?)
    && (row.startTime == [] || parse(row.startTime).Some?)
  }

  /** The field defaulting and the record construction for one row. */
  function ConvertRow(row: Row, dataDir: string, parse: FloatParser): (r: Result<(Recording, Supervision), PrepError>)
    ensures r.Ok? <==> RowParses(row, parse)
    ensures r.Err? ==>
              r.error == if row.duration != [] && parse(row.duration).None?
                         then BadNumber("duration", row.duration)
                         else BadNumber("start_time", row.startTime)
    ensures r.Ok? ==>
              var (rec, sup) := r.value;
              && rec.id == RecordingId(row.audioPath)
              && sup.id == rec.id && sup.recordingId == rec.id
              && rec.samplingRate == 16000 && rec.numChannels == 1
              && rec.sources == [AudioSource("file", [0], JoinPath(dataDir, row.audioPath))]
              && rec.duration == sup.duration
              && rec.duration == (if row.duration == [] then 0.0 else parse(row.duration).value)
              && sup.start == (if row.startTime == [] then 0.0 else parse(row.startTime).value)
              && sup.text == row.text && sup.language == "Spanish"
              && sup.speaker == (if row.speaker == [] then "unknown" else row.speaker)
  {
    match NumberOrZero("duration", row.duration, parse)
    case Err(e) => Err(e)
    case Ok(duration) =>
      var speaker := if row.speaker == [] then UnknownSpeaker else row.speaker;
      match NumberOrZero("start_time", row.startTime, parse)
      case Err(e) => Err(e)
      case Ok(start) =>
        var id := RecordingId(row.audioPath);
        var rec := Recording(id, SamplingRate, 1, duration,
                             [AudioSource("file", [0], JoinPath(dataDir, row.audioPath))]);
        var sup := Supervision(id, id, start, duration, row.text, Language, speaker);
        Ok((rec, sup))
  }

  function Append(p: Part, rec: Recording, sup: Supervision): Part
  {
    Part(p.recordings + [rec], p.supervisions + [sup])
  }

  /** Appends the pair to the lists of the split `k` names, if any. */
  function Place(s: Splits, k: Option<SplitName>, rec: Recording, sup: Supervision): Splits
  {
    match k
    case None => s
    case Some(Train) => s.(train := Append(s.train, rec, sup))
    case Some(Dev) => s.(dev := Append(s.dev, rec, sup))
    case Some(Test) => s.(test := Append(s.test, rec, sup))
  }

  /** The six lists the row loop leaves behind, or the error of the first row it aborts on. */
  function Prepare(rows: seq<Row>, dataDir: string, parse: FloatParser): Result<Splits, PrepError>
    decreases |rows|
  {
    if rows == [] then Ok(EmptySplits)
    else
      match Prepare(rows[..|rows| - 1], dataDir, parse)
      case Err(e) => Err(e)
      case Ok(s) =>
        var row := rows[|rows| - 1];
        match ConvertRow(row, dataDir, parse)
        case Err(e) => Err(e)
        case Ok((rec, sup)) => Ok(Place(s, Route(row.split), rec, sup))
  }

  /** The rows routed to split `k`, in CSV order. */
  function Pick(rows: seq<Row>, k: SplitName): seq<Row>
    decreases |rows|
  {
    if rows == [] then []
    else
      var rest := Pick(rows[..|rows| - 1], k);
      if Route(rows[|rows| - 1].split) == Some(k) then rest + [rows[|rows| - 1]] else rest
  }

  /** The rows whose label names no split. */
  function Unrouted(rows: seq<Row>): seq<Row>
    decreases |rows|
  {
    if rows == [] then []
    else
      var rest := Unrouted(rows[..|rows| - 1]);
      if Route(rows[|rows| - 1].split) == None then rest + [rows[|rows| - 1]] else rest
  }

  /** The output file of split `k` under `manifestDir`. */
  function ManifestPath(manifestDir: string, k: SplitName): string
  {
    manifestDir + "/spa_cuts_" + (match k case Train => "train" case Dev => "dev" case Test => "test") + ".jsonl.gz"
  }

  /** The `if`/`elif` chain of the row loop: appends the pair to the two lists of the row's split. */
  method AppendToSplit(split: string, rec: Recording, sup: Supervision,
                       trainRecordings: seq<Recording>, trainSupers: seq<Supervision>,
                       devRecordings: seq<Recording>, devSupers: seq<Supervision>,
                       testRecordings: seq<Recording>, testSupers: seq<Supervision>)
    returns (trainRecordings': seq<Recording>, trainSupers': seq<Supervision>,
             devRecordings': seq<Recording>, devSupers': seq<Supervision>,
             testRecordings': seq<Recording>, testSupers': seq<Supervision>)
    ensures Splits(Part(trainRecordings', trainSupers'), Part(devRecordings', devSupers'),
                   Part(testRecordings', testSupers'))
            == Place(Splits(Part(trainRecordings, trainSupers), Part(devRecordings, devSupers),
                            Part(testRecordings, testSupers)), Route(split), rec, sup)
  {
    trainRecordings', trainSupers' := trainRecordings, trainSupers;
    devRecordings', devSupers' := devRecordings, devSupers;
    testRecordings', testSupers' := testRecordings, testSupers;
    if split == "train" {
      trainRecordings' := trainRecordings' + [rec];
      trainSupers' := trainSupers' + [sup];
    } else if split == "validation" {
      devRecordings' := devRecordings' + [rec];
      devSupers' := devSupers' + [sup];
    } else if split == "test" {
      testRecordings' := testRecordings' + [rec];
      testSupers' := testSupers' + [sup];
    }
  }

  /** The `for row in reader` loop: converts each row and appends it to the lists of its split. */
  method BuildSplits(rows: seq<Row>, dataDir: string, parse: FloatParser) returns (r: Result<Splits, PrepError>)
    ensures r == Prepare(rows, dataDir, parse)
  {
    var trainRecordings, trainSupers := [], [];
    var devRecordings, devSupers := [], [];
    var testRecordings, testSupers := [], [];
    var i := 0;
    while i < |rows|
      invariant 0 <= i <= |rows|
      invariant Prepare(rows[..i], dataDir, parse)
                == Ok(Splits(Part(trainRecordings, trainSupers), Part(devRecordings, devSupers),
                             Part(testRecordings, testSupers)))
    {
      var row := rows[i];
      PrepareExtend(rows, i, dataDir, parse);
      var converted := ConvertRow(row, dataDir, parse);
      if converted.Err? {
        PrepareErrorPersists(rows, i + 1, dataDir, parse);
        return Err(converted.error);
      }
      var (rec, sup) := converted.value;
      trainRecordings, trainSupers, devRecordings, devSupers, testRecordings, testSupers :=
        AppendToSplit(row.split, rec, sup, trainRecordings, trainSupers, devRecordings, devSupers,
                      testRecordings, testSupers);
      i := i + 1;
    }
    assert rows[..|rows|] == rows;
    r := Ok(Splits(Part(trainRecordings, trainSupers), Part(devRecordings, devSupers),
                   Part(testRecordings, testSupers)));
  }

  /**
   * The whole script: the row loop, then per split `fix_manifests` and
   * `CutSet.from_manifests`, then one manifest file per split. The result maps
   * each written path to the cut set written there; nothing is written when a
   * row aborts the run.
   */
  method PrepareManifests<C>(rows: seq<Row>, dataDir: string, manifestDir: string, parse: FloatParser,
                             fix: (seq<Recording>, seq<Supervision>) -> (seq<Recording>, seq<Supervision>),
                             fromManifests: (seq<Recording>, seq<Supervision>) -> C)
    returns (written: Result<map<string, C>, PrepError>)
    ensures written.Ok? <==> Prepare(rows, dataDir, parse).Ok?
    ensures written.Err? ==> written == Err(Prepare(rows, dataDir, parse).error)
    ensures written.Ok? ==>
              && written.value.Keys == {ManifestPath(manifestDir, Train), ManifestPath(manifestDir, Dev),
                                        ManifestPath(manifestDir, Test)}
              && forall k: SplitName ::
                   var part := Prepare(rows, dataDir, parse).value.Get(k);
                   var fixed := fix(part.recordings, part.supervisions);
                   written.value[ManifestPath(manifestDir, k)] == fromManifests(fixed.0, fixed.1)
  {
    var splits := BuildSplits(rows, dataDir, parse);
    if splits.Err? {
      return Err(splits.error);
    }
    var s := splits.value;
    var trainFixed := fix(s.train.recordings, s.train.supervisions);
    var trainCuts := fromManifests(trainFixed.0, trainFixed.1);
    var devFixed := fix(s.dev.recordings, s.dev.supervisions);
    var devCuts := fromManifests(devFixed.0, devFixed.1);
    var testFixed := fix(s.test.recordings, s.test.supervisions);
    var testCuts := fromManifests(testFixed.0, testFixed.1);
    ManifestPathsDistinct(manifestDir);
    var out := map[];
    out := out[ManifestPath(manifestDir, Train) := trainCuts];
    out := out[ManifestPath(manifestDir, Dev) := devCuts];
    out := out[ManifestPath(manifestDir, Test) := testCuts];
    forall k: SplitName
      ensures var fixed := fix(s.Get(k).recordings, s.Get(k).supervisions);
              out[ManifestPath(manifestDir, k)] == fromManifests(fixed.0, fixed.1)
    {
      match k
      case Train => assert out[ManifestPath(manifestDir, Train)] == trainCuts;
      case Dev => assert out[ManifestPath(manifestDir, Dev)] == devCuts;
      case Test => assert out[ManifestPath(manifestDir, Test)] == testCuts;
    }
    written := Ok(out);
  }

  // ---------------------------------------------------------------------
  // Properties
  // ---------------------------------------------------------------------

  /** One more row: the loop state after row `i` in terms of the state before it. */
  lemma PrepareExtend(rows: seq<Row>, i: nat, dataDir: string, parse: FloatParser)
    requires i < |rows|
    ensures Prepare(rows[..i + 1], dataDir, parse) ==
              match Prepare(rows[..i], dataDir, parse)
              case Err(e) => Err(e)
              case Ok(s) =>
                match ConvertRow(rows[i], dataDir, parse)
                case Err(e) => Err(e)
                case Ok((rec, sup)) => Ok(Place(s, Route(rows[i].split), rec, sup))
  {
    assert rows[..i + 1][..i] == rows[..i];
    assert rows[..i + 1][i] == rows[i];
  }

  lemma PlaceGet(s: Splits, o: Option<SplitName>, rec: Recording, sup: Supervision, k: SplitName)
    ensures Place(s, o, rec, sup).Get(k) == if o == Some(k) then Append(s.Get(k), rec, sup) else s.Get(k)
  {
  }

  /** Once a row aborts the loop, every longer run aborts with the same error. */
  lemma {:induction false} PrepareErrorPersists(rows: seq<Row>, k: nat, dataDir: string, parse: FloatParser)
    requires k <= |rows|
    requires Prepare(rows[..k], dataDir, parse).Err?
    ensures Prepare(rows, dataDir, parse) == Prepare(rows[..k], dataDir, parse)
    decreases |rows|
  {
    if k < |rows| {
      assert rows[..|rows| - 1][..k] == rows[..k];
      PrepareErrorPersists(rows[..|rows| - 1], k, dataDir, parse);
    } else {
      assert rows[..k] == rows;
    }
  }

  /** Every row's numbers parse. */
  predicate AllRowsParse(rows: seq<Row>, parse: FloatParser)
  {
    forall i :: 0 <= i < |rows| ==> RowParses(rows[i], parse)
  }

  /** Every row parses exactly when all but the last do and the last does too. */
  lemma AllRowsParseSplit(rows: seq<Row>, parse: FloatParser)
    requires rows != []
    ensures AllRowsParse(rows, parse) <==>
              AllRowsParse(rows[..|rows| - 1], parse) && RowParses(rows[|rows| - 1], parse)
  {
    var init := rows[..|rows| - 1];
    if AllRowsParse(rows, parse) {
      forall j | 0 <= j < |init| ensures RowParses(init[j], parse) {
        assert init[j] == rows[j];
      }
    }
  }

  /** The run succeeds exactly when every row's numbers parse. */
  lemma {:induction false} PrepareSucceedsIff(rows: seq<Row>, dataDir: string, parse: FloatParser)
    ensures Prepare(rows, dataDir, parse).Ok? <==> AllRowsParse(rows, parse)
    decreases |rows|
  {
    if rows != [] {
      var init, last := rows[..|rows| - 1], rows[|rows| - 1];
      PrepareSucceedsIff(init, dataDir, parse);
      AllRowsParseSplit(rows, parse);
      assert Prepare(rows, dataDir, parse).Ok? <==>
               Prepare(init, dataDir, parse).Ok? && ConvertRow(last, dataDir, parse).Ok?;
    }
  }

  /** A failing run reports the error of the first row whose numbers do not parse. */
  lemma PrepareFailsAtFirstBadRow(rows: seq<Row>, k: nat, dataDir: string, parse: FloatParser)
    requires k < |rows| && !RowParses(rows[k], parse)
    requires forall j :: 0 <= j < k ==> RowParses(rows[j], parse)
    ensures Prepare(rows, dataDir, parse) == Err(ConvertRow(rows[k], dataDir, parse).error)
  {
    var prefix := rows[..k];
    forall j | 0 <= j < |prefix| ensures RowParses(prefix[j], parse) {
      assert prefix[j] == rows[j];
    }
    PrepareSucceedsIff(prefix, dataDir, parse);
    var upto := rows[..k + 1];
    assert upto[..|upto| - 1] == prefix && upto[|upto| - 1] == rows[k];
    assert Prepare(upto, dataDir, parse) == Err(ConvertRow(rows[k], dataDir, parse).error) by {
      assert Prepare(prefix, dataDir, parse).Ok?;
    }
    PrepareErrorPersists(rows, k + 1, dataDir, parse);
  }

  /**
   * A successful run puts into split `k` exactly the rows routed to it, in CSV
   * order: the recordings and supervisions lists have one entry per such row,
   * stay index-aligned, and entry `j` is the conversion of the `j`-th such row.
   */
  lemma {:induction false} PrepareSplitContents(rows: seq<Row>, dataDir: string, parse: FloatParser, k: SplitName)
    requires Prepare(rows, dataDir, parse).Ok?
    ensures var part := Prepare(rows, dataDir, parse).value.Get(k);
            && |part.recordings| == |Pick(rows, k)| == |part.supervisions|
            && forall j :: 0 <= j < |part.recordings| ==>
                 ConvertRow(Pick(rows, k)[j], dataDir, parse) == Ok((part.recordings[j], part.supervisions[j]))
    decreases |rows|
  {
    if rows != [] {
      var init := rows[..|rows| - 1];
      var last := rows[|rows| - 1];
      PrepareSplitContents(init, dataDir, parse, k);
      var s := Prepare(init, dataDir, parse).value;
      var (rec, sup) := ConvertRow(last, dataDir, parse).value;
      PlaceGet(s, Route(last.split), rec, sup, k);
      var before, after := s.Get(k), Prepare(rows, dataDir, parse).value.Get(k);
      var picked := Pick(init, k);
      if Route(last.split) == Some(k) {
        assert Pick(rows, k) == picked + [last];
        assert after == Append(before, rec, sup);
        forall j | 0 <= j < |after.recordings|
          ensures ConvertRow(Pick(rows, k)[j], dataDir, parse) == Ok((after.recordings[j], after.supervisions[j]))
        {
          if j < |before.recordings| {
            assert Pick(rows, k)[j] == picked[j];
            assert after.recordings[j] == before.recordings[j];
            assert after.supervisions[j] == before.supervisions[j];
          }
        }
      } else {
        assert Pick(rows, k) == picked;
        assert after == before;
      }
    }
  }

  /** A row is picked for split `k` exactly when it is a row of the CSV whose label routes to `k`. */
  lemma {:induction false} PickMembership(rows: seq<Row>, k: SplitName, row: Row)
    ensures row in Pick(rows, k) <==> row in rows && Route(row.split) == Some(k)
    decreases |rows|
  {
    if rows != [] {
      var init := rows[..|rows| - 1];
      PickMembership(init, k, row);
      assert rows == init + [rows[|rows| - 1]];
    }
  }

  /**
   * The splits partition the rows: every row is picked for exactly one split or
   * for none, so the three splits and the dropped rows together count the CSV.
   */
  lemma {:induction false} PickPartition(rows: seq<Row>)
    ensures |Pick(rows, Train)| + |Pick(rows, Dev)| + |Pick(rows, Test)| + |Unrouted(rows)| == |rows|
    decreases |rows|
  {
    if rows != [] {
      PickPartition(rows[..|rows| - 1]);
    }
  }

  /** A row lands in at most one split. */
  lemma SplitsDisjoint(rows: seq<Row>, row: Row, k1: SplitName, k2: SplitName)
    requires row in Pick(rows, k1) && row in Pick(rows, k2)
    ensures k1 == k2
  {
    PickMembership(rows, k1, row);
    PickMembership(rows, k2, row);
  }

  /** The id keeps the file extension: a suffix without `/` survives the replacement. */
  lemma RecordingIdKeepsSuffix(dirs: string, name: string)
    requires '/' !in name
    ensures RecordingId(dirs + name) == RecordingId(dirs) + name
    ensures '/' !in RecordingId(dirs + name)
  {
    ReplaceCharAppend(dirs, name, '/', '_');
    ReplaceCharAbsent(name, '/', '_');
  }

  /**
   * The id is not unique across the CSV: a nested path and a flat file name
   * that spells the `/` as `_` get the same id.
   */
  lemma RecordingIdCollides()
    ensures "a/b.wav" != "a_b.wav" && RecordingId("a/b.wav") == RecordingId("a_b.wav")
  {
    assert RecordingId("a/b.wav") == "a_b.wav";
  }

  /** The three output files are distinct, so no split overwrites another. */
  lemma ManifestPathsDistinct(manifestDir: string)
    ensures ManifestPath(manifestDir, Train) != ManifestPath(manifestDir, Dev)
    ensures ManifestPath(manifestDir, Train) != ManifestPath(manifestDir, Test)
    ensures ManifestPath(manifestDir, Dev) != ManifestPath(manifestDir, Test)
  {
    var n := |manifestDir + "/spa_cuts_"|;
    assert ManifestPath(manifestDir, Train)[n] == 't';
    assert ManifestPath(manifestDir, Dev)[n] == 'd';
    assert ManifestPath(manifestDir, Test)[n] == 't';
    assert |ManifestPath(manifestDir, Train)| != |ManifestPath(manifestDir, Test)|;
  }
}
