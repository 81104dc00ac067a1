/**
  The two input layouts a model backend accepts, as a closed variant instead of
  string-keyed dictionaries, and the backend tags that select them.
 */
module ModelInputs {
  import opened Tensors

  /** Tag of the MaxText backend (`ModelImplementationType.MAXTEXT`). */
  const MaxText: string := "MaxText"

  /** Tag of the KerasHub backend (`ModelImplementationType.KERASHUB`). */
  const KerasHub: string := "KerasHub"

  /** The `"x"` part of a model input: one constructor per backend, one field per dictionary key. */
  datatype ModelX =
    | MaxTextX(tokens: Matrix, segmentIds: Matrix, positions: Matrix)
    | KerasHubX(tokenIds: Matrix, paddingMask: Matrix)
  {
    /** The dictionary keys the backend reads. */
    function Keys(): set<string> {
      match this
      case MaxTextX(_, _, _) => {"tokens", "segment_ids", "positions"}
      case KerasHubX(_, _) => {"token_ids", "padding_mask"}
    }

    /** The token ids, whatever key the backend reads them under. */
    function TokenIds(): Matrix {
      match this
      case MaxTextX(tokens, _, _) => tokens
      case KerasHubX(tokenIds, _) => tokenIds
    }
  }

  /** A complete model input: `{"x": ..., "y": label_ids}`. */
  datatype ModelInput = ModelInput(x: ModelX, y: Matrix)
}
