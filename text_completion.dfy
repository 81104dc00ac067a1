/**
  The per-sample transform of `TextCompletionDataset`: a raw record goes
  through `task_transform` (optional formatting, then projection onto the
  `"text"` column), `model_transform` (wrap in `<bos>`/`<eos>`, tokenize to a
  fixed length, derive next-token labels) and `convert_to_model_specific_input`
  (pick the dictionary layout of the resolved backend).

  The tokenizer is a foreign collaborator and is given as a function value
  together with its pad id; the process-wide `MODEL_IMPLEMENTATION` setting is
  an explicit optional parameter.
 */
module TextCompletion {
  import opened Results
  import opened Tensors
  import opened ModelInputs

  /** A raw record: column name to value. */
  type Record = map<string, string>

  /** What the tokenizer returns for one string: `input_ids` and `attention_mask`. */
  datatype Encoding = Encoding(inputIds: Matrix, attentionMask: Matrix)

  /**
    The tokenizer as the pipeline uses it: `encode(s, n)` tokenizes `s`
    padded or truncated to `n` tokens; `padId` is `pad_token_id` once the
    pad token has been set.
   */
  datatype Tokenizer = Tokenizer(encode: (string, nat) -> Encoding, padId: int)

  /** `input_ids` and `attention_mask` are arrays of the same shape with `n` columns. */
  predicate Shaped(e: Encoding, n: nat) {
    |e.attentionMask| == |e.inputIds| && Rectangular(e.inputIds, n) && Rectangular(e.attentionMask, n)
  }

  /** The shape promise of the tokenizer: every encoding has exactly the requested length. */
  ghost predicate FixedLength(t: Tokenizer) {
    forall s, n :: Shaped(t.encode(s, n), n)
  }

  /** The exceptions the transform can raise. */
  datatype Error =
    | MissingTokenizer                   // AssertionError: neither tokenizer nor handle
    | KeyError(key: string)              // a mapped column is absent from the record
    | IndexError                         // `label_ids[:, -1]` on an array without columns
    | MissingModelType                   // ValueError: no backend tag resolved
    | UnsupportedModelType(tag: string)  // ValueError: a tag with no input layout

  /** The output of `model_transform`. */
  datatype TokenizedSample = TokenizedSample(inputIds: Matrix, attentionMask: Matrix, labelIds: Matrix)

  /** The wrapper `to_packed_dataset` returns: the dataset and the pad value used to fill packed rows. */
  datatype PackedDataset = PackedDataset(dataset: TextCompletionDataset, padValue: int)

  /** The column mapping every dataset starts from. */
  const DefaultColumnMapping: map<string, string> := map["text" := "text"]

  /** The string handed to the tokenizer. */
  function Wrap(text: string): (r: string)
    ensures |r| == |text| + 10
    ensures r[..5] == "<bos>" && r[5..|r| - 5] == text && r[|r| - 5..] == "<eos>"
  {
    "<bos>" + text + "<eos>"
  }

  /** Python truthiness of a backend tag: an unset tag and the empty string are false. */
  predicate Falsy(tag: Option<string>)
    ensures Falsy(tag) ==> !Supported(tag)
  {
    tag.None? || tag.value == ""
  }

  /** A tag that has an input layout. */
  predicate Supported(tag: Option<string>)
    ensures Supported(tag) <==> tag.Some? && tag.value in {MaxText, KerasHub}
  {
    tag == Some(MaxText) || tag == Some(KerasHub)
  }

  /**
    The label invariant of a tokenized sample: `labels` has the shape of
    `ids`, position c of every row holds the token at c + 1 of the same row,
    and the last position holds the pad id.
   */
  predicate NextTokenLabels(ids: Matrix, labels: Matrix, n: nat, pad: int) {
    && n > 0
    && Rectangular(ids, n)
    && |labels| == |ids|
    && Rectangular(labels, n)
    && (forall q, c :: 0 <= q < |ids| && 0 <= c < n - 1 ==> labels[q][c] == ids[q][c + 1])
    && (forall q :: 0 <= q < |ids| ==> labels[q][n - 1] == pad)
  }

  /** The label invariant determines the labels: they are exactly the row shift. */
  lemma NextTokenLabelsAreRowShift(ids: Matrix, labels: Matrix, n: nat, pad: int)
    requires Rectangular(ids, n) && n > 0
    ensures NextTokenLabels(ids, labels, n, pad) <==> labels == ShiftRows(ids, pad)
  {
    if NextTokenLabels(ids, labels, n, pad) {
      var shifted := ShiftRows(ids, pad);
      forall q | 0 <= q < |ids| ensures labels[q] == shifted[q] {
        assert |labels[q]| == n == |shifted[q]|;
      }
    }
  }

  /**
    The effective column mapping: the default `{"text": "text"}` overridden
    key by key by the caller's mapping, when that mapping is given and not empty.
   */
  function MergeColumnMapping(columnMapping: Option<map<string, string>>): (r: map<string, string>)
    ensures "text" in r
    ensures columnMapping.None? ==> r == DefaultColumnMapping
    ensures columnMapping.Some? ==> r.Keys == columnMapping.value.Keys + {"text"}
    ensures columnMapping.Some? ==> forall k :: k in columnMapping.value ==> r[k] == columnMapping.value[k]
    ensures columnMapping.Some? && "text" !in columnMapping.value ==> r["text"] == "text"
  {
    if columnMapping.Some? && |columnMapping.value| > 0 then
      DefaultColumnMapping + columnMapping.value
    else
      DefaultColumnMapping
  }

  /**
    The tokenizer the dataset uses: the given instance if there is one, else
    the one loaded from the handle; with neither, construction fails.
   */
  function ChooseTokenizer(tokenizer: Option<Tokenizer>, tokenizerHandle: Option<string>,
                           load: string -> Tokenizer): (r: Result<Tokenizer, Error>)
    ensures r.Failure? <==> tokenizer.None? && tokenizerHandle.None?
    ensures r.Failure? ==> r.error == MissingTokenizer
    ensures tokenizer.Some? ==> r == Success(tokenizer.value)
    ensures tokenizer.None? && tokenizerHandle.Some? ==> r == Success(load(tokenizerHandle.value))
  {
    if tokenizer.None? && tokenizerHandle.None? then Failure(MissingTokenizer)
    else if tokenizer.None? then Success(load(tokenizerHandle.value))
    else Success(tokenizer.value)
  }

  /**
    `label_ids = np.roll(input_ids, -1); label_ids[:, -1] = pad`: the flattened
    ids rolled one place to the left into a fresh 2-D array, whose last column
    is then overwritten with the pad id row by row.
   */
  method RollAndPadLabels(inputIds: Matrix, n: nat, pad: int) returns (labelIds: Matrix)
    requires Rectangular(inputIds, n) && n > 0
    ensures labelIds == ShiftRows(inputIds, pad)
  {
    var rows := |inputIds|;
    var rolled := Reshape(RollLeft(Flatten(inputIds, n)), rows, n);
    var labels := new int[rows, n]((q: nat, c: nat) requires q < rows && c < n => rolled[q][c]);
    for q := 0 to rows
      invariant forall q', c :: 0 <= q' < rows && 0 <= c < n ==>
                  labels[q', c] == if c == n - 1 && q' < q then pad else rolled[q'][c]
    {
      labels[q, n - 1] := pad;
    }
    labelIds := seq(rows, (q: int) requires 0 <= q < rows reads labels =>
                  seq(n, (c: int) requires 0 <= c < n reads labels => labels[q, c]));
    assert labelIds == OverwriteLastColumn(rolled, pad) by {
      forall q | 0 <= q < rows ensures labelIds[q] == OverwriteLastColumn(rolled, pad)[q] {
      }
    }
    RollThenPadIsRowShift(inputIds, n, pad);
  }

  class TextCompletionDataset {
    const source: seq<Record>
    const maxSeqLen: nat
    const tokenizer: Tokenizer
    const columnMapping: map<string, string>
    const modelType: Option<string>
    const customFormattingFn: Option<Record -> Record>
    const packing: bool

    /** The tokenizer keeps its shape promise and the mapping names the text column. */
    ghost predicate Valid() {
      FixedLength(tokenizer) && "text" in columnMapping
    }

    /** Stores the configuration with an already chosen tokenizer. */
    constructor (source: seq<Record>, tokenizer: Tokenizer, columnMapping: Option<map<string, string>> := None,
                 modelType: Option<string> := Some(KerasHub), maxSeqLen: nat := 1024,
                 customFormattingFn: Option<Record -> Record> := None, packing: bool := false)
      requires FixedLength(tokenizer)
      ensures Valid()
      ensures this.source == source && this.tokenizer == tokenizer && this.maxSeqLen == maxSeqLen
      ensures this.columnMapping == MergeColumnMapping(columnMapping)
      ensures this.modelType == modelType && this.customFormattingFn == customFormattingFn
      ensures this.packing == packing
    {
      this.source := source;
      this.maxSeqLen := maxSeqLen;
      this.tokenizer := tokenizer;
      this.columnMapping := MergeColumnMapping(columnMapping);
      this.modelType := modelType;
      this.customFormattingFn := customFormattingFn;
      this.packing := packing;
    }

    /**
      `TextCompletionDataset(...)`: fails when neither a tokenizer nor a
      handle is given, otherwise builds the dataset around the chosen
      tokenizer (`load` stands for loading one from a handle). The optional
      arguments default as in the source: no tokenizer, no handle, no column
      mapping, backend `"KerasHub"`, 1024 tokens, no formatting, no packing.
     */
    static method Create(source: seq<Record>, load: string -> Tokenizer,
                         tokenizer: Option<Tokenizer> := None, tokenizerHandle: Option<string> := None,
                         columnMapping: Option<map<string, string>> := None,
                         modelType: Option<string> := Some(KerasHub), maxSeqLen: nat := 1024,
                         customFormattingFn: Option<Record -> Record> := None, packing: bool := false)
      returns (r: Result<TextCompletionDataset, Error>)
      requires tokenizer.Some? ==> FixedLength(tokenizer.value)
      requires tokenizer.None? && tokenizerHandle.Some? ==> FixedLength(load(tokenizerHandle.value))
      ensures r.Failure? <==> tokenizer.None? && tokenizerHandle.None?
      ensures r.Failure? ==> r.error == MissingTokenizer
      ensures r.Success? ==> fresh(r.value) && r.value.Valid()
      ensures r.Success? ==> r.value.tokenizer == ChooseTokenizer(tokenizer, tokenizerHandle, load).value
      ensures r.Success? ==> r.value.columnMapping == MergeColumnMapping(columnMapping)
      ensures r.Success? ==> r.value.source == source && r.value.maxSeqLen == maxSeqLen
      ensures r.Success? ==> r.value.modelType == modelType && r.value.customFormattingFn == customFormattingFn
      ensures r.Success? ==> r.value.packing == packing
    {
      var chosen := ChooseTokenizer(tokenizer, tokenizerHandle, load);
      if chosen.Failure? {
        return Failure(chosen.error);
      }
      var ds := new TextCompletionDataset(source, chosen.value, columnMapping, modelType, maxSeqLen,
                                          customFormattingFn, packing);
      return Success(ds);
    }

    /** The record after the optional custom formatting function. */
    function Formatted(sample: Record): (r: Record)
      ensures customFormattingFn.None? ==> r == sample
      ensures customFormattingFn.Some? ==> r == customFormattingFn.value(sample)
    {
      if customFormattingFn.Some? then customFormattingFn.value(sample) else sample
    }

    /**
      `task_transform`: format, then keep only the mapped text column under the
      key `"text"`; a missing column raises instead of being skipped.
     */
    function TaskTransform(sample: Record): (r: Result<Record, Error>)
      requires Valid()
      ensures var column := columnMapping["text"];
              r.Success? <==> column in Formatted(sample)
      ensures r.Failure? ==> r.error == KeyError(columnMapping["text"])
      ensures r.Success? ==> r.value.Keys == {"text"}
      ensures r.Success? ==> r.value["text"] == Formatted(sample)[columnMapping["text"]]
    {
      var formatted := Formatted(sample);
      var column := columnMapping["text"];
      if column in formatted then Success(map["text" := formatted[column]])
      else Failure(KeyError(column))
    }

    /**
      What `model_transform` computes: the tokenizer's arrays for the wrapped
      text, and labels that satisfy the next-token invariant.
     */
    function ExpectedTokenization(sample: Record): (r: Result<TokenizedSample, Error>)
      requires Valid()
      ensures r.Success? <==> "text" in sample && maxSeqLen > 0
      ensures "text" !in sample ==> r == Failure(KeyError("text"))
      ensures "text" in sample && maxSeqLen == 0 ==> r == Failure(IndexError)
      ensures r.Success? ==>
                var full := tokenizer.encode(Wrap(sample["text"]), maxSeqLen);
                && r.value.inputIds == full.inputIds
                && r.value.attentionMask == full.attentionMask
                && NextTokenLabels(r.value.inputIds, r.value.labelIds, maxSeqLen, tokenizer.padId)
    {
      if "text" !in sample then Failure(KeyError("text"))
      else
        var full := tokenizer.encode(Wrap(sample["text"]), maxSeqLen);
        assert Shaped(full, maxSeqLen);
        if maxSeqLen == 0 then Failure(IndexError)
        else Success(TokenizedSample(full.inputIds, full.attentionMask, ShiftRows(full.inputIds, tokenizer.padId)))
    }

    /**
      `model_transform`: tokenize the wrapped text, then build the labels the
      way numpy does (see `RollAndPadLabels`).
     */
    method ModelTransform(sample: Record) returns (r: Result<TokenizedSample, Error>)
      requires Valid()
      ensures r == ExpectedTokenization(sample)
    {
      if "text" !in sample {
        return Failure(KeyError("text"));
      }
      var full := tokenizer.encode(Wrap(sample["text"]), maxSeqLen);
      assert Shaped(full, maxSeqLen);
      if maxSeqLen == 0 {
        // `label_ids[:, -1]` has no column to address
        return Failure(IndexError);
      }
      var labelIds := RollAndPadLabels(full.inputIds, maxSeqLen, tokenizer.padId);
      return Success(TokenizedSample(full.inputIds, full.attentionMask, labelIds));
    }

    /** The backend tag in force: the global setting when it is set, else the constructor's. */
    function ResolveModelType(globalTag: Option<string>): (t: Option<string>)
      ensures globalTag.Some? ==> t == globalTag
      ensures globalTag.None? ==> t == modelType
    {
      if globalTag.Some? then globalTag else modelType
    }

    /**
      `convert_to_model_specific_input`: the dictionary layout of the resolved
      backend, or a ValueError for a missing or unknown tag.
     */
    function ConvertToModelSpecificInput(globalTag: Option<string>, inputIds: Matrix,
                                         attentionMask: Matrix, labelIds: Matrix): (r: Result<ModelInput, Error>)
      ensures r.Success? <==> Supported(ResolveModelType(globalTag))
      ensures Falsy(ResolveModelType(globalTag)) ==> r == Failure(MissingModelType)
      ensures var t := ResolveModelType(globalTag);
              !Falsy(t) && !Supported(t) ==> r == Failure(UnsupportedModelType(t.value))
      ensures r.Success? ==> r.value.y == labelIds && r.value.x.TokenIds() == inputIds
      ensures r.Success? ==> (r.value.x.MaxTextX? <==> ResolveModelType(globalTag) == Some(MaxText))
      ensures r.Success? && r.value.x.MaxTextX? ==>
                && r.value.x.Keys() == {"tokens", "segment_ids", "positions"}
                && r.value.x.segmentIds == attentionMask
                && |r.value.x.positions| == 1
                && |r.value.x.positions[0]| == maxSeqLen
                && (forall c :: 0 <= c < maxSeqLen ==> r.value.x.positions[0][c] == c)
      ensures r.Success? && r.value.x.KerasHubX? ==>
                && r.value.x.Keys() == {"token_ids", "padding_mask"}
                && r.value.x.paddingMask == attentionMask
    {
      var tag := ResolveModelType(globalTag);
      if Falsy(tag) then Failure(MissingModelType)
      else if tag.value == MaxText then
        Success(ModelInput(MaxTextX(inputIds, attentionMask, [Arange(maxSeqLen)]), labelIds))
      else if tag.value == KerasHub then
        Success(ModelInput(KerasHubX(inputIds, attentionMask), labelIds))
      else Failure(UnsupportedModelType(tag.value))
    }

    /**
      `process_sample`: the three stages in order; the first stage that
      raises decides the error, so a missing column is reported before a bad
      sequence length, and both before a bad backend tag.
     */
    function ProcessSample(globalTag: Option<string>, sample: Record): (r: Result<ModelInput, Error>)
      requires Valid()
      ensures var column := columnMapping["text"];
              column !in Formatted(sample) ==> r == Failure(KeyError(column))
      ensures var column := columnMapping["text"];
              column in Formatted(sample) && maxSeqLen == 0 ==> r == Failure(IndexError)
      ensures var column := columnMapping["text"];
              column in Formatted(sample) && maxSeqLen > 0 ==>
                var full := tokenizer.encode(Wrap(Formatted(sample)[column]), maxSeqLen);
                r == ConvertToModelSpecificInput(globalTag, full.inputIds, full.attentionMask,
                                                 ShiftRows(full.inputIds, tokenizer.padId))
      ensures r.Success? <==>
                columnMapping["text"] in Formatted(sample) && maxSeqLen > 0 && Supported(ResolveModelType(globalTag))
      ensures r.Success? ==>
                var full := tokenizer.encode(Wrap(Formatted(sample)[columnMapping["text"]]), maxSeqLen);
                && r.value.x.TokenIds() == full.inputIds
                && NextTokenLabels(r.value.x.TokenIds(), r.value.y, maxSeqLen, tokenizer.padId)
    {
      var task :- TaskTransform(sample);
      var tokenized :- ExpectedTokenization(task);
      ConvertToModelSpecificInput(globalTag, tokenized.inputIds, tokenized.attentionMask, tokenized.labelIds)
    }

    /** `to_packed_dataset`: this dataset wrapped for packing, padded with the tokenizer's pad id. */
    function ToPackedDataset(): (r: PackedDataset)
      ensures r.dataset == this && r.padValue == tokenizer.padId
    {
      PackedDataset(this, tokenizer.padId)
    }
  }

  /**
    A caller that passes only a source and a tokenizer handle: the defaults
    select the KerasHub layout when no global tag is set, and a record with a
    `"text"` column goes through the whole pipeline.
   */
  method DefaultsClient() {
    var load := (h: string) => Tokenizer((s: string, n: nat) => Encoding([seq(n, _ => 7)], [seq(n, _ => 1)]), 0);
    assert FixedLength(load("tok")) by {
      forall s, n ensures Shaped(load("tok").encode(s, n), n) { }
    }
    var created := TextCompletionDataset.Create([], load, tokenizerHandle := Some("tok"));
    assert created.Success?;
    var ds := created.value;
    assert ds.modelType == Some(KerasHub) && ds.maxSeqLen == 1024 && ds.columnMapping == DefaultColumnMapping;
    var out := ds.ProcessSample(None, map["text" := "hello"]);
    assert out.Success? && out.value.x.KerasHubX?;
  }
}
