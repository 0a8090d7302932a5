/**
 * Fine-tuning sample preparation (src/train.py): reading instruction records
 * from a JSON-lines file into prompt/response examples, turning one example
 * into token ids with a response-first truncation and prompt-masked labels,
 * and padding a batch of such items to a common length.
 *
 * The file system, `json.loads` and the tokenizer are parameters: whether the
 * path exists, the file's lines, a parser that yields a JSON object or nothing,
 * and a function from text to token ids.
 */
module Training {
  import opened Wrappers
  import opened Text

  // ---------------------------------------------------------------------------
  // Records and examples.

  /** A JSON value as far as the loader looks at one: a string, or anything else with its truthiness and its `str()`. */
  datatype JsonValue = JString(s: string) | JOther(truthy: bool, shown: string)

  type JsonObject = map<string, JsonValue>

  /** Python's None. */
  const Null: JsonValue := JOther(false, "None")

  /** `data.get(key)`. */
  function Get(data: JsonObject, key: string): JsonValue
  {
    if key in data then data[key] else Null
  }

  predicate Truthy(v: JsonValue)
  {
    match v
    case JString(s) => s != ""
    case JOther(t, _) => t
  }

  /** Python's `a or b`. */
  function Or(a: JsonValue, b: JsonValue): JsonValue
  {
    if Truthy(a) then a else b
  }

  /** Python's `str()`. */
  function Str(v: JsonValue): string
  {
    match v
    case JString(s) => s
    case JOther(_, shown) => shown
  }

  function InstructionField(data: JsonObject): JsonValue
  {
    Or(Or(Get(data, "instruction"), Get(data, "prompt")), JString(""))
  }

  function InputField(data: JsonObject): JsonValue
  {
    Or(Get(data, "input"), JString(""))
  }

  function ResponseField(data: JsonObject): JsonValue
  {
    Or(Or(Or(Get(data, "output"), Get(data, "response")), Get(data, "answer")), JString(""))
  }

  /** The first truthy one of "instruction" and "prompt" is taken; "prompt" only matters when "instruction" is falsy. */
  lemma InstructionFallsBack(data: JsonObject)
    ensures Truthy(Get(data, "instruction")) ==> InstructionField(data) == Get(data, "instruction")
    ensures !Truthy(Get(data, "instruction")) && Truthy(Get(data, "prompt")) ==> InstructionField(data) == Get(data, "prompt")
    ensures !Truthy(Get(data, "instruction")) && !Truthy(Get(data, "prompt")) ==> InstructionField(data) == JString("")
  {
  }

  datatype Example = Example(promptText: string, responseText: string)

  /** `"\n".join(parts)`. */
  function JoinLines(parts: seq<string>): string
  {
    if |parts| == 0 then ""
    else if |parts| == 1 then parts[0]
    else parts[0] + "\n" + JoinLines(parts[1..])
  }

  /** The instruction line, the input line when there is an input, and the response cue. */
  function PromptParts(instruction: string, inputText: string): (parts: seq<string>)
    ensures |parts| == if inputText != "" then 3 else 2
  {
    ["Instruction: " + instruction] + (if inputText != "" then ["Input: " + inputText] else []) + ["Response:"]
  }

  /** The prompt the dataset builds from a stripped instruction and input. */
  function PromptText(instruction: string, inputText: string): string
  {
    PyStrip(JoinLines(PromptParts(instruction, inputText)))
  }

  /** The joined prompt never starts or ends with whitespace, so the final strip removes nothing and the prompt is its lines joined by newlines. */
  lemma PromptTextShape(instruction: string, inputText: string)
    ensures PromptText(instruction, inputText)
            == "Instruction: " + instruction + (if inputText != "" then "\nInput: " + inputText else "") + "\nResponse:"
  {
    var parts := PromptParts(instruction, inputText);
    var first := "Instruction: " + instruction;
    var joined := first + (if inputText != "" then "\nInput: " + inputText else "") + "\nResponse:";
    assert JoinLines(["Response:"]) == "Response:";
    if inputText != "" {
      var second := "Input: " + inputText;
      assert parts == [first, second, "Response:"];
      assert parts[1..] == [second, "Response:"];
      assert parts[1..][1..] == ["Response:"];
      assert JoinLines(parts[1..]) == second + "\n" + "Response:";
      assert JoinLines(parts) == first + "\n" + (second + "\n" + "Response:");
    } else {
      assert parts == [first, "Response:"];
      assert parts[1..] == ["Response:"];
      assert JoinLines(parts) == first + "\n" + "Response:";
    }
    assert JoinLines(parts) == joined;
    assert joined[0] == first[0] == 'I';
    assert joined[|joined| - 1] == ':';
    TrimUnchanged(joined, IsPyWhitespace);
  }

  /** The prompt's length, and the input line is there exactly when the input is not empty. */
  lemma PromptInputLine(instruction: string, inputText: string)
    ensures |PromptText(instruction, inputText)| == 23 + |instruction| + (if inputText != "" then 8 + |inputText| else 0)
    ensures PromptText(instruction, inputText) == PromptText(instruction, "") <==> inputText == ""
  {
    PromptTextShape(instruction, inputText);
    PromptTextShape(instruction, "");
  }

  /** The prompt opens with "Instruction: " and the instruction, and closes with the response cue. */
  lemma PromptFrame(instruction: string, inputText: string)
    ensures var p := PromptText(instruction, inputText);
            && |p| >= 23 + |instruction|
            && p[..13] == "Instruction: "
            && p[13..13 + |instruction|] == instruction
            && p[|p| - 10..] == "\nResponse:"
  {
    PromptTextShape(instruction, inputText);
    var p := PromptText(instruction, inputText);
    var head := "Instruction: " + instruction;
    var body := head + (if inputText != "" then "\nInput: " + inputText else "");
    assert p == body + "\nResponse:";
    assert p[|body|..] == "\nResponse:";
    assert p[..|head|] == head by {
      assert p[..|body|] == body;
      assert body[..|head|] == head;
    }
    assert p[..13] == head[..13];
    assert p[13..|head|] == head[13..];
  }

  /** An example as the loader keeps it: a non-empty stripped response and a prompt framed by the instruction line and the response cue. */
  predicate WellFormedExample(ex: Example)
  {
    && ex.responseText != ""
    && PyStrip(ex.responseText) == ex.responseText
    && |ex.promptText| >= 23
    && ex.promptText[..13] == "Instruction: "
    && ex.promptText[|ex.promptText| - 10..] == "\nResponse:"
  }

  // ---------------------------------------------------------------------------
  // Reading the file.

  datatype LoadError = FileNotFound(path: string) | MalformedLine(line: nat) | NotText(line: nat) | NoValidExamples

  /** What one line contributes: nothing, an example, or the exception that ends the load. */
  datatype LineOutcome = Skipped | Kept(example: Example) | Raised(error: LoadError)

  /**
   * One parsed record: the instruction (falling back to "prompt") and the
   * input must be text to be stripped; a record whose stripped instruction or
   * stripped response (falling back through "output", "response",
   * "answer") is empty is skipped.
   */
  function FromRecord(line: nat, data: JsonObject): (r: LineOutcome)
    ensures r.Raised? <==> !InstructionField(data).JString? || !InputField(data).JString?
    ensures r.Raised? ==> r.error == NotText(line)
    ensures r.Kept? <==>
              && InstructionField(data).JString? && InputField(data).JString?
              && PyStrip(InstructionField(data).s) != "" && PyStrip(Str(ResponseField(data))) != ""
    ensures r.Kept? ==>
              && r.example.promptText == PromptText(PyStrip(InstructionField(data).s), PyStrip(InputField(data).s))
              && r.example.responseText == PyStrip(Str(ResponseField(data)))
  {
    var instruction := InstructionField(data);
    if !instruction.JString? then Raised(NotText(line))
    else
      var inputText := InputField(data);
      if !inputText.JString? then Raised(NotText(line))
      else
        var i, x, response := PyStrip(instruction.s), PyStrip(inputText.s), PyStrip(Str(ResponseField(data)));
        if i == "" || response == "" then Skipped
        else
          Kept(Example(PromptText(i, x), response))
  }

  /** A kept record gives a well-formed example. */
  lemma KeptRecordWellFormed(line: nat, data: JsonObject)
    requires FromRecord(line, data).Kept?
    ensures WellFormedExample(FromRecord(line, data).example)
  {
    BuiltExampleWellFormed(PyStrip(InstructionField(data).s), PyStrip(InputField(data).s), Str(ResponseField(data)));
  }

  /** The example built from an instruction and input and a response that strips to something is well formed. */
  lemma BuiltExampleWellFormed(instruction: string, inputText: string, response: string)
    requires PyStrip(response) != ""
    ensures WellFormedExample(Example(PromptText(instruction, inputText), PyStrip(response)))
  {
    PromptFrame(instruction, inputText);
    TrimIdempotent(response, IsPyWhitespace);
  }

  /** One line of the file: blank after stripping is skipped, otherwise it must parse to a JSON object. */
  function ReadLine(line: nat, raw: string, parse: string -> Option<JsonObject>): (r: LineOutcome)
    ensures PyStrip(raw) == "" ==> r == Skipped
    ensures r.Raised? ==> r.error == MalformedLine(line) || r.error == NotText(line)
  {
    var stripped := PyStrip(raw);
    if stripped == "" then Skipped
    else match parse(stripped)
      case None => Raised(MalformedLine(line))
      case Some(data) => FromRecord(line, data)
  }

  /** What each line of the file contributes. */
  function Outcomes(lines: seq<string>, parse: string -> Option<JsonObject>): (r: seq<LineOutcome>)
    ensures |r| == |lines|
    ensures forall i :: 0 <= i < |lines| ==> r[i] == ReadLine(i, lines[i], parse)
  {
    seq(|lines|, i requires 0 <= i < |lines| => ReadLine(i, lines[i], parse))
  }

  /** Every example a line yields is well formed. */
  lemma OutcomesWellFormed(lines: seq<string>, parse: string -> Option<JsonObject>)
    ensures var outcomes := Outcomes(lines, parse);
            forall k :: 0 <= k < |outcomes| && outcomes[k].Kept? ==> WellFormedExample(outcomes[k].example)
  {
    var outcomes := Outcomes(lines, parse);
    forall k | 0 <= k < |outcomes| && outcomes[k].Kept?
      ensures WellFormedExample(outcomes[k].example)
    {
      var data := parse(PyStrip(lines[k])).value;
      KeptRecordWellFormed(k, data);
    }
  }

  /** The examples of the first `n` outcomes, or the first error among them. */
  function Scan(outcomes: seq<LineOutcome>, n: nat): (r: Result<seq<Example>, LoadError>)
    requires n <= |outcomes|
    ensures r.Success? ==> |r.value| <= n
    ensures r.Failure? ==> Raised(r.error) in outcomes[..n]
  {
    if n == 0 then Success([])
    else match Scan(outcomes, n - 1)
      case Failure(e) =>
        assert outcomes[..n - 1] <= outcomes[..n];
        Failure(e)
      case Success(examples) =>
        match outcomes[n - 1]
        case Skipped => Success(examples)
        case Kept(ex) => Success(examples + [ex])
        case Raised(e) => Failure(e)
  }

  /** Every example the scan keeps is one of the kept examples among the outcomes, so it is well formed when they are. */
  lemma {:induction false} ScanWellFormed(outcomes: seq<LineOutcome>, n: nat)
    requires n <= |outcomes|
    requires forall k :: 0 <= k < |outcomes| && outcomes[k].Kept? ==> WellFormedExample(outcomes[k].example)
    ensures Scan(outcomes, n).Success? ==>
              forall k :: 0 <= k < |Scan(outcomes, n).value| ==> WellFormedExample(Scan(outcomes, n).value[k])
  {
    if n > 0 {
      ScanWellFormed(outcomes, n - 1);
      var prev := Scan(outcomes, n - 1);
      if prev.Success? && outcomes[n - 1].Kept? {
        var xs := prev.value + [outcomes[n - 1].example];
        assert Scan(outcomes, n) == Success(xs);
        forall k | 0 <= k < |xs| ensures WellFormedExample(xs[k]) {
          if k < |prev.value| { assert xs[k] == prev.value[k]; }
        }
      }
    }
  }

  /** Once a line raises, the load has failed with that error however many lines follow. */
  lemma {:induction false} ScanFailureSticks(outcomes: seq<LineOutcome>, n: nat, m: nat)
    requires n <= m <= |outcomes|
    requires Scan(outcomes, n).Failure?
    ensures Scan(outcomes, m) == Scan(outcomes, n)
    decreases m - n
  {
    if n < m {
      ScanFailureSticks(outcomes, n + 1, m);
    }
  }

  /** Outcomes that contribute nothing leave nothing to keep. */
  lemma {:induction false} SkippedLinesKeepNothing(outcomes: seq<LineOutcome>, n: nat)
    requires n <= |outcomes|
    requires forall k :: 0 <= k < n ==> outcomes[k] == Skipped
    ensures Scan(outcomes, n) == Success([])
  {
    if n > 0 {
      SkippedLinesKeepNothing(outcomes, n - 1);
    }
  }

  /** A file of blank lines yields no example. */
  lemma BlankFileKeepsNothing(lines: seq<string>, parse: string -> Option<JsonObject>)
    requires forall k :: 0 <= k < |lines| ==> PyStrip(lines[k]) == ""
    ensures Scan(Outcomes(lines, parse), |lines|) == Success([])
  {
    SkippedLinesKeepNothing(Outcomes(lines, parse), |lines|);
  }

  /** The dataset's constructor: a missing file, the first bad line, or no examples at all are errors. */
  function Load(pathExists: bool, path: string, lines: seq<string>, parse: string -> Option<JsonObject>)
    : (r: Result<seq<Example>, LoadError>)
    ensures !pathExists ==> r == Failure(FileNotFound(path))
    ensures pathExists && Scan(Outcomes(lines, parse), |lines|).Failure? ==> r == Scan(Outcomes(lines, parse), |lines|)
    ensures r == Failure(NoValidExamples) <==> pathExists && Scan(Outcomes(lines, parse), |lines|) == Success([])
    ensures r.Success? ==>
              && r == Scan(Outcomes(lines, parse), |lines|) && |r.value| > 0
              && forall k :: 0 <= k < |r.value| ==> WellFormedExample(r.value[k])
  {
    var outcomes := Outcomes(lines, parse);
    if !pathExists then Failure(FileNotFound(path))
    else
      OutcomesWellFormed(lines, parse);
      ScanWellFormed(outcomes, |lines|);
      assert outcomes[..|lines|] == outcomes;
      match Scan(outcomes, |lines|)
      case Failure(e) => Failure(e)
      case Success(examples) => if examples == [] then Failure(NoValidExamples) else Success(examples)
  }

  /** The constructor's loop: each line's outcome in turn, appending kept examples and stopping at the first raise. */
  method CollectExamples(outcomes: seq<LineOutcome>) returns (r: Result<seq<Example>, LoadError>)
    ensures r == Scan(outcomes, |outcomes|)
  {
    var examples: seq<Example> := [];
    var n := 0;
    while n < |outcomes|
      invariant 0 <= n <= |outcomes|
      invariant Scan(outcomes, n) == Success(examples)
    {
      match outcomes[n] {
        case Skipped =>
        case Kept(ex) =>
          examples := examples + [ex];
        case Raised(e) =>
          ScanFailureSticks(outcomes, n + 1, |outcomes|);
          return Failure(e);
      }
      n := n + 1;
    }
    r := Success(examples);
  }

  /** The lines of the file read into examples. */
  method ReadExamples(lines: seq<string>, parse: string -> Option<JsonObject>) returns (r: Result<seq<Example>, LoadError>)
    ensures r == Scan(Outcomes(lines, parse), |lines|)
  {
    var outcomes := Outcomes(lines, parse);
    r := CollectExamples(outcomes);
  }

  // ---------------------------------------------------------------------------
  // Items.

  /** One training item: token ids, the attention mask and the labels. */
  datatype Item = Item(inputIds: seq<int>, attentionMask: seq<int>, labels: seq<int>)

  /** The label value the loss ignores. */
  const IgnoreIndex: int := -100

  /** Python's `s[:k]`. */
  function Take(s: seq<int>, k: int): seq<int>
  {
    if k <= 0 then [] else if k >= |s| then s else s[..k]
  }

  /** Python's `s[k:]`. */
  function Drop(s: seq<int>, k: int): seq<int>
  {
    if k <= 0 then s else if k >= |s| then [] else s[k..]
  }

  function Max(a: int, b: int): int
  {
    if a >= b then a else b
  }

  /**
   * The truncation: the response is cut first, keeping its beginning; only a
   * prompt that alone overflows is cut, keeping its end.
   */
  function Fit(promptIds: seq<int>, responseIds: seq<int>, maxLen: int): (r: (seq<int>, seq<int>))
    ensures maxLen >= 0 ==> |r.0| + |r.1| <= maxLen
    ensures |promptIds| + |responseIds| <= maxLen ==> r == (promptIds, responseIds)
    ensures maxLen >= 0 && |promptIds| + |responseIds| > maxLen ==> |r.0| + |r.1| == maxLen
    ensures |r.1| <= |responseIds| && r.1 == responseIds[..|r.1|]
    ensures |r.0| <= |promptIds| && r.0 == promptIds[|promptIds| - |r.0|..]
    ensures |promptIds| <= maxLen ==> r.0 == promptIds
    ensures r.0 != promptIds ==> r.1 == []
  {
    var response := if |promptIds| + |responseIds| > maxLen then Take(responseIds, Max(0, maxLen - |promptIds|)) else responseIds;
    var prompt := if |promptIds| + |response| > maxLen then Drop(promptIds, |promptIds| + |response| - maxLen) else promptIds;
    (prompt, response)
  }

  /** `[v] * n`. */
  function Repeat(v: int, n: int): (r: seq<int>)
    ensures |r| == if n > 0 then n else 0
    ensures forall j :: 0 <= j < |r| ==> r[j] == v
    decreases n
  {
    if n <= 0 then [] else [v] + Repeat(v, n - 1)
  }

  /** The `InstructionJsonlDataset`: its examples and the tokenizer settings it encodes them with. */
  class InstructionDataset {
    const examples: seq<Example>
    const maxLength: int
    const tokenize: string -> seq<int>
    const eosToken: Option<string>

    constructor(examples: seq<Example>, maxLength: int, tokenize: string -> seq<int>, eosToken: Option<string>)
      ensures this.examples == examples && this.maxLength == maxLength
      ensures this.tokenize == tokenize && this.eosToken == eosToken
    {
      this.examples := examples;
      this.maxLength := maxLength;
      this.tokenize := tokenize;
      this.eosToken := eosToken;
    }

    function Length(): nat
    {
      |examples|
    }

    /** The response as it is tokenized: a leading space, the stripped response and the end-of-sequence token if there is one. */
    function ResponseText(ex: Example): string
    {
      " " + PyStrip(ex.responseText) + (if eosToken.Some? then eosToken.value else "")
    }

    /** The prompt and response ids after truncation. */
    function Encoded(ex: Example): (seq<int>, seq<int>)
    {
      Fit(tokenize(ex.promptText), tokenize(ResponseText(ex)), maxLength)
    }

    /** `__getitem__`, with Python's negative indices counted from the end. */
    method GetItem(idx: int) returns (item: Item)
      requires -|examples| <= idx < |examples|
      ensures var ex := examples[if idx < 0 then |examples| + idx else idx];
              var fitted := Encoded(ex);
              && item.inputIds == fitted.0 + fitted.1
              && |item.attentionMask| == |item.inputIds| && |item.labels| == |item.inputIds|
              && (forall j :: 0 <= j < |item.attentionMask| ==> item.attentionMask[j] == 1)
              && (forall j :: 0 <= j < |fitted.0| ==> item.labels[j] == IgnoreIndex)
              && (forall j :: |fitted.0| <= j < |item.labels| ==> item.labels[j] == item.inputIds[j])
      ensures maxLength >= 0 ==> |item.inputIds| <= maxLength
    {
      var ex := examples[if idx < 0 then |examples| + idx else idx];
      var promptIds := tokenize(ex.promptText);
      var responseIds := tokenize(ResponseText(ex));
      var fitted := Fit(promptIds, responseIds, maxLength);
      var inputIds := fitted.0 + fitted.1;
      var attentionMask := Repeat(1, |inputIds|);
      var labels := inputIds;
      var promptLen := |fitted.0|;
      for i := 0 to promptLen
        invariant |labels| == |inputIds|
        invariant forall j :: 0 <= j < i ==> labels[j] == IgnoreIndex
        invariant forall j :: i <= j < |labels| ==> labels[j] == inputIds[j]
      {
        labels := labels[i := IgnoreIndex];
      }
      item := Item(inputIds, attentionMask, labels);
    }
  }

  /** The response of a kept example is already stripped, so `__getitem__` strips it again to the same text. */
  lemma ResponseStripIsNoOp(ex: Example)
    requires WellFormedExample(ex)
    ensures PyStrip(ex.responseText) == ex.responseText
  {
  }

  /**
   * The constructor: reads the examples, then builds the dataset. It raises
   * (here: fails) when the path is missing, a line is bad or nothing is kept.
   */
  method LoadDataset(pathExists: bool, path: string, lines: seq<string>, parse: string -> Option<JsonObject>,
                     maxLength: int, tokenize: string -> seq<int>, eosToken: Option<string>)
    returns (r: Result<InstructionDataset, LoadError>)
    ensures r.Failure? <==> Load(pathExists, path, lines, parse).Failure?
    ensures r.Failure? ==> r.error == Load(pathExists, path, lines, parse).error
    ensures r.Success? ==>
              && fresh(r.value)
              && r.value.examples == Load(pathExists, path, lines, parse).value
              && r.value.maxLength == maxLength && r.value.tokenize == tokenize && r.value.eosToken == eosToken
  {
    if !pathExists {
      return Failure(FileNotFound(path));
    }
    var examples := ReadExamples(lines, parse);
    if examples.Failure? {
      return Failure(examples.error);
    }
    if examples.value == [] {
      return Failure(NoValidExamples);
    }
    var dataset := new InstructionDataset(examples.value, maxLength, tokenize, eosToken);
    r := Success(dataset);
  }

  // ---------------------------------------------------------------------------
  // Batches.

  datatype Batch = Batch(inputIds: seq<seq<int>>, attentionMask: seq<seq<int>>, labels: seq<seq<int>>)

  /** The padding id: the tokenizer's pad id, else its end-of-sequence id; with neither the constant pad fills zeros. */
  function PadId(padTokenId: Option<int>, eosTokenId: Option<int>): (pad: int)
    ensures padTokenId.Some? ==> pad == padTokenId.value
    ensures padTokenId.None? && eosTokenId.Some? ==> pad == eosTokenId.value
    ensures padTokenId.None? && eosTokenId.None? ==> pad == 0
  {
    if padTokenId.Some? then padTokenId.value else if eosTokenId.Some? then eosTokenId.value else 0
  }

  /** The longest item's length. */
  function MaxLength(batch: seq<Item>): (m: nat)
    requires |batch| > 0
    ensures forall k :: 0 <= k < |batch| ==> |batch[k].inputIds| <= m
    ensures exists k :: 0 <= k < |batch| && |batch[k].inputIds| == m
  {
    if |batch| == 1 then |batch[0].inputIds|
    else
      var rest := MaxLength(batch[1..]);
      assert forall k :: 1 <= k < |batch| ==> batch[k] == batch[1..][k - 1];
      if |batch[0].inputIds| >= rest then |batch[0].inputIds| else rest
  }

  /** A row of the batch: the item's own values followed by `width - |ids|` padding values. */
  function Padded(row: seq<int>, ids: seq<int>, width: int, fill: int): seq<int>
  {
    row + Repeat(fill, width - |ids|)
  }

  /** `torch.nn.functional.pad` on the right by `padLen` values when that is positive; the row itself otherwise. */
  function PadRight(row: seq<int>, padLen: int, fill: int): (r: seq<int>)
    ensures r == row + Repeat(fill, padLen)
  {
    if padLen > 0 then row + Repeat(fill, padLen)
    else
      assert Repeat(fill, padLen) == [];
      row
  }

  /** An item as `__getitem__` builds it: mask and labels as long as the ids. */
  predicate WellFormedItem(item: Item)
  {
    |item.attentionMask| == |item.inputIds| && |item.labels| == |item.inputIds|
  }

  /**
   * The collate function: every item is padded to the longest item's length,
   * ids with the pad id, the mask with 0 and the labels with the ignore
   * index. An empty batch has no longest item (max() raises).
   */
  method Collate(batch: seq<Item>, padTokenId: Option<int>, eosTokenId: Option<int>) returns (r: Option<Batch>)
    ensures r.None? <==> batch == []
    ensures r.Some? ==>
              var width := MaxLength(batch);
              var pad := PadId(padTokenId, eosTokenId);
              && |r.value.inputIds| == |batch| && |r.value.attentionMask| == |batch| && |r.value.labels| == |batch|
              && forall k :: 0 <= k < |batch| ==>
                   && r.value.inputIds[k] == Padded(batch[k].inputIds, batch[k].inputIds, width, pad)
                   && r.value.attentionMask[k] == Padded(batch[k].attentionMask, batch[k].inputIds, width, 0)
                   && r.value.labels[k] == Padded(batch[k].labels, batch[k].inputIds, width, IgnoreIndex)
  {
    if batch == [] {
      return None;
    }
    var pad := PadId(padTokenId, eosTokenId);
    var width := MaxLength(batch);
    var ids: seq<seq<int>> := [];
    var masks: seq<seq<int>> := [];
    var labels: seq<seq<int>> := [];
    for k := 0 to |batch|
      invariant |ids| == k && |masks| == k && |labels| == k
      invariant forall m :: 0 <= m < k ==>
                  && ids[m] == Padded(batch[m].inputIds, batch[m].inputIds, width, pad)
                  && masks[m] == Padded(batch[m].attentionMask, batch[m].inputIds, width, 0)
                  && labels[m] == Padded(batch[m].labels, batch[m].inputIds, width, IgnoreIndex)
    {
      var item := batch[k];
      var padLen := width - |item.inputIds|;
      ids := ids + [PadRight(item.inputIds, padLen, pad)];
      masks := masks + [PadRight(item.attentionMask, padLen, 0)];
      labels := labels + [PadRight(item.labels, padLen, IgnoreIndex)];
    }
    r := Some(Batch(ids, masks, labels));
  }

  /**
   * Padding keeps each item as the prefix of its row, gives well-formed items
   * rows of the common width, and never adds a position the loss or the
   * attention sees.
   */
  lemma PaddedRow(item: Item, width: int, pad: int)
    requires WellFormedItem(item) && |item.inputIds| <= width
    ensures var ids := Padded(item.inputIds, item.inputIds, width, pad);
            var mask := Padded(item.attentionMask, item.inputIds, width, 0);
            var labels := Padded(item.labels, item.inputIds, width, IgnoreIndex);
            && |ids| == width && |mask| == width && |labels| == width
            && ids[..|item.inputIds|] == item.inputIds
            && mask[..|item.inputIds|] == item.attentionMask
            && labels[..|item.inputIds|] == item.labels
            && forall j :: |item.inputIds| <= j < width ==> ids[j] == pad && mask[j] == 0 && labels[j] == IgnoreIndex
  {
  }
}
