/**
  The two helpers the model tests use to build backend inputs directly from
  token ids, without going through a dataset.
 */
module ModelTestUtils {
  import opened Results
  import opened Tensors
  import opened ModelInputs
  import TextCompletion

  /** The exceptions the MaxText builder can raise. */
  datatype BuildError =
    | NoFirstRow   // IndexError: `input_ids.tolist()[0]` on an array without rows
    | EmptyStack   // ValueError: stacking zero copies when the global batch size is not positive

  /** The column count S of a (B, S) array (0 when it has no rows). */
  function Width(m: Matrix): (s: nat)
    ensures forall n :: m != [] && Rectangular(m, n) ==> s == n
  {
    if m == [] then 0 else |m[0]|
  }

  /**
    `get_maxtext_model_input`: the first row of `input_ids` repeated once per
    slot of the global batch (`deviceCount * perDeviceBatchSize` slots),
    all-ones segment ids and `0 .. S - 1` positions in every row. Rows after
    the first are ignored. `deviceCount` stands for `jax.device_count()`;
    the per-device batch size defaults to 1.
   */
  function MaxTextModelInput(inputIds: Matrix, deviceCount: nat, perDeviceBatchSize: int := 1): (r: Result<ModelX, BuildError>)
    requires deviceCount > 0
    ensures r.Success? <==> |inputIds| > 0 && perDeviceBatchSize > 0
    ensures |inputIds| == 0 ==> r == Failure(NoFirstRow)
    ensures |inputIds| > 0 && perDeviceBatchSize <= 0 ==> r == Failure(EmptyStack)
    ensures r.Success? ==>
              var globalBatchSize := deviceCount * perDeviceBatchSize;
              var s := Width(inputIds);
              && r.value.MaxTextX?
              && r.value.Keys() == {"tokens", "segment_ids", "positions"}
              && |r.value.tokens| == globalBatchSize
              && (forall q :: 0 <= q < globalBatchSize ==> r.value.tokens[q] == inputIds[0])
              && |r.value.segmentIds| == globalBatchSize
              && Rectangular(r.value.segmentIds, s)
              && (forall q, c :: 0 <= q < globalBatchSize && 0 <= c < s ==> r.value.segmentIds[q][c] == 1)
              && |r.value.positions| == globalBatchSize
              && Rectangular(r.value.positions, s)
              && (forall q, c :: 0 <= q < globalBatchSize && 0 <= c < s ==> r.value.positions[q][c] == c)
  {
    var globalBatchSize := deviceCount * perDeviceBatchSize;
    if |inputIds| == 0 then Failure(NoFirstRow)
    else if globalBatchSize <= 0 then Failure(EmptyStack)
    else
      var s := |inputIds[0]|;
      Success(MaxTextX(Replicate(inputIds[0], globalBatchSize), Ones(globalBatchSize, s),
                       Replicate(Arange(s), globalBatchSize)))
  }

  /**
    `get_kerashub_model_input`: the token ids unchanged and an all-ones
    padding mask of the same (B, S) shape.
   */
  function KerasHubModelInput(inputIds: Matrix): (r: ModelX)
    ensures r.KerasHubX? && r.Keys() == {"token_ids", "padding_mask"}
    ensures r.tokenIds == inputIds
    ensures |r.paddingMask| == |inputIds| && Rectangular(r.paddingMask, Width(inputIds))
    ensures forall q, c :: 0 <= q < |inputIds| && 0 <= c < Width(inputIds) ==> r.paddingMask[q][c] == 1
  {
    KerasHubX(inputIds, Ones(|inputIds|, Width(inputIds)))
  }

  /**
    The test builder and the dataset agree on the MaxText layout: for one
    row of `max_seq_len` tokens with a full attention mask, one device and a
    per-device batch of one, the dataset's `"x"` is exactly what
    `get_maxtext_model_input` builds.
   */
  lemma MaxTextLayoutsAgree(ds: TextCompletion.TextCompletionDataset, globalTag: Option<string>,
                            inputIds: Matrix, labelIds: Matrix)
    requires ds.ResolveModelType(globalTag) == Some(MaxText)
    requires |inputIds| == 1 && |inputIds[0]| == ds.maxSeqLen
    ensures MaxTextModelInput(inputIds, 1, 1).Success?
    ensures ds.ConvertToModelSpecificInput(globalTag, inputIds, Ones(1, ds.maxSeqLen), labelIds)
            == Success(ModelInput(MaxTextModelInput(inputIds, 1, 1).value, labelIds))
  {
    assert Replicate(inputIds[0], 1) == inputIds;
    assert Replicate(Arange(ds.maxSeqLen), 1) == [Arange(ds.maxSeqLen)];
  }
}
