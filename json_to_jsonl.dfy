/**
 * Converting a JSON-array file to JSON Lines (egs/spanish/ASR/json_to_jsonl.py).
 *
 * The parsed input must be an array; each element is then written as its
 * serialisation followed by a newline, in order. `json.load`/`json.dumps`
 * are function parameters, and a file is its logical (decompressed) text.
 */
module JsonToJsonl {
  import opened Wrappers
  import opened Strings
  import opened JsonValue

  /** How a file is opened: `gzip.open` when its name ends in `.gz`, `open` otherwise. */
  datatype Codec = Plain | Gzip

  /** The output file: how it was opened and the chunks written to it, in order. */
  datatype OutFile = OutFile(codec: Codec, writes: seq<string>)

  /** `json.load` raised on the input text. */
  datatype ConvertError = InvalidJson

  function CodecOf(path: string): Codec
  {
    if EndsWith(path, ".gz") then Gzip else Plain
  }

  /** The text of a file made of the given chunks. */
  function Concat(chunks: seq<string>): string
  {
    if chunks == [] then [] else chunks[0] + Concat(chunks[1..])
  }

  /** `isinstance(data, list)` */
  predicate IsList(data: Json)
  {
    data.JArray?
  }

  /**
   * `convert_json_to_jsonl`: `Err` where `json.load` raises; `Ok(false)` and no
   * output when the data is not an array; otherwise `Ok(true)` and one write of
   * `dumps(item) + "\n"` per element, in order. `inputText` is the input
   * file's decompressed text, so the input's suffix plays no part; the
   * output's suffix picks only the codec.
   */
  method ConvertJsonToJsonl(outputPath: string, inputText: string,
                            loads: string -> Option<Json>, dumps: Json -> string)
    returns (r: Result<bool, ConvertError>, written: Option<OutFile>)
    ensures loads(inputText).None? ==> r == Err(InvalidJson) && written == None
    ensures loads(inputText).Some? && !IsList(loads(inputText).value) ==> r == Ok(false) && written == None
    ensures loads(inputText).Some? && IsList(loads(inputText).value) ==>
              var items := loads(inputText).value.items;
              && r == Ok(true) && written.Some?
              && written.value.codec == CodecOf(outputPath)
              && |written.value.writes| == |items|
              && forall i :: 0 <= i < |items| ==> written.value.writes[i] == dumps(items[i]) + "\n"
  {
    var data := loads(inputText);
    if data.None? {
      return Err(InvalidJson), None;
    }
    if !data.value.JArray? {
      return Ok(false), None;
    }
    var items := data.value.items;
    var writes := [];
    for i := 0 to |items|
      invariant |writes| == i
      invariant forall k :: 0 <= k < i ==> writes[k] == dumps(items[k]) + "\n"
    {
      writes := writes + [dumps(items[i]) + "\n"];
    }
    r, written := Ok(true), Some(OutFile(CodecOf(outputPath), writes));
  }

  /**
   * The script's entry point: exit status 1 without two paths; otherwise the
   * conversion's outcome, where a `json.load` failure is an uncaught exception
   * (status 1) and a non-array is reported with status 1 as well.
   */
  method RunScript(argv: seq<string>, inputText: string, loads: string -> Option<Json>, dumps: Json -> string)
    returns (status: int, written: Option<OutFile>)
    ensures status == 0 <==> |argv| >= 3 && loads(inputText).Some? && IsList(loads(inputText).value)
    ensures status != 0 ==> status == 1 && written == None
    ensures status == 0 ==>
              var items := loads(inputText).value.items;
              && written.Some? && written.value.codec == CodecOf(argv[2]) && |written.value.writes| == |items|
              && forall i :: 0 <= i < |items| ==> written.value.writes[i] == dumps(items[i]) + "\n"
  {
    if |argv| < 3 {
      return 1, None;
    }
    var r;
    r, written := ConvertJsonToJsonl(argv[2], inputText, loads, dumps);
    status := if r == Ok(true) then 0 else 1;
  }

  /** Reading a JSON Lines text back: one `json.loads` per line, failing if any line fails. */
  function ParseJsonl(text: string, loads: string -> Option<Json>): Option<seq<Json>>
  {
    ParseLines(Lines(text), loads)
  }

  function ParseLines(lines: seq<string>, loads: string -> Option<Json>): (r: Option<seq<Json>>)
    ensures r.Some? ==> |r.value| == |lines|
  {
    if lines == [] then Some([])
    else match (loads(lines[0]), ParseLines(lines[1..], loads))
      case (Some(v), Some(vs)) => Some([v] + vs)
      case _ => None
  }

  // ---------------------------------------------------------------------
  // Properties
  // ---------------------------------------------------------------------

  /** The written chunks concatenate to the serialisations, one per line. */
  lemma {:induction false} ConcatIsUnlines(writes: seq<string>, lines: seq<string>)
    requires |writes| == |lines|
    requires forall i :: 0 <= i < |lines| ==> writes[i] == lines[i] + "\n"
    ensures Concat(writes) == Unlines(lines)
    decreases |lines|
  {
    if lines != [] {
      ConcatIsUnlines(writes[1..], lines[1..]);
    }
  }

  lemma {:induction false} ParseLinesInverse(items: seq<Json>, lines: seq<string>,
                                             loads: string -> Option<Json>, dumps: Json -> string)
    requires |lines| == |items|
    requires forall i :: 0 <= i < |items| ==> lines[i] == dumps(items[i])
    requires forall i :: 0 <= i < |items| ==> loads(dumps(items[i])) == Some(items[i])
    ensures ParseLines(lines, loads) == Some(items)
    decreases |items|
  {
    if items != [] {
      ParseLinesInverse(items[1..], lines[1..], loads, dumps);
      assert [items[0]] + items[1..] == items;
    }
  }

  /**
   * The reformatting is a bijection on arrays: when `loads` inverts `dumps` on
   * the elements and no serialisation holds a newline, reading the written
   * JSON Lines back gives the original array, element by element and in order.
   */
  lemma RoundTrip(inputText: string,
                  loads: string -> Option<Json>, dumps: Json -> string, out: OutFile)
    requires loads(inputText).Some? && IsList(loads(inputText).value)
    requires var items := loads(inputText).value.items;
             && |out.writes| == |items|
             && forall i :: 0 <= i < |items| ==> out.writes[i] == dumps(items[i]) + "\n"
    requires forall i :: 0 <= i < |loads(inputText).value.items| ==>
               var item := loads(inputText).value.items[i];
               loads(dumps(item)) == Some(item) && '\n' !in dumps(item)
    ensures ParseJsonl(Concat(out.writes), loads) == Some(loads(inputText).value.items)
    ensures |Lines(Concat(out.writes))| == |loads(inputText).value.items|
  {
    var items := loads(inputText).value.items;
    var lines := seq(|items|, i requires 0 <= i < |items| => dumps(items[i]));
    ConcatIsUnlines(out.writes, lines);
    LinesUnlines(lines);
    ParseLinesInverse(items, lines, loads, dumps);
  }
}
