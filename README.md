# Text-completion sample transform, modelled in Dafny

This project models how kithara's `TextCompletionDataset` turns one raw
record into the input dictionary of a model backend, and the two helpers the
model tests use to build such inputs by hand.

A record goes through three stages, always in this order:

1. `task_transform` applies the optional custom formatting function. It then
   keeps only the column that the column mapping names for `"text"`, under
   the key `"text"`.
2. `model_transform` tokenizes `"<bos>" + text + "<eos>"` to `max_seq_len`
   tokens. It derives next-token labels with `np.roll(input_ids, -1)` and then
   overwrites the last column with the pad id.
3. `convert_to_model_specific_input` resolves the backend tag and builds the
   layout of that backend: MaxText (`tokens`, `segment_ids`, `positions`) or
   KerasHub (`token_ids`, `padding_mask`). The global `MODEL_IMPLEMENTATION`
   setting wins over the constructor's `model_type`.

Files:

- `results.dfy`: `Option` and `Result`, for the Python exceptions.
- `tensors.dfy`: 2-D integer arrays as `seq<seq<int>>`. It holds row-major
  flattening and reshaping, `np.roll(a, -1)`, the last-column overwrite and
  the per-row shift. It also holds the lemma that a flattened roll followed by
  the overwrite is the per-row shift.
- `model_inputs.dfy`: the two backend layouts as one closed datatype, and the
  backend tags `"MaxText"` and `"KerasHub"`.
- `text_completion.dfy`: the `TextCompletionDataset` class and its stages.
  `model_transform` builds its labels in a fresh 2-D array and writes the pad
  column in a loop.
- `model_test_utils.dfy`: `get_maxtext_model_input` and
  `get_kerashub_model_input`, plus a lemma that the first agrees with the
  dataset's MaxText layout.

Foreign collaborators become parameters:

- The tokenizer is a value `Tokenizer(encode, padId)`. `encode(s, n)` stands
  for `HFtokenize(s, tokenizer, seq_len=n)`. The predicate `FixedLength` states
  its shape promise: `input_ids` and `attention_mask` have the same number of
  rows and exactly `n` columns.
- Loading a tokenizer from a handle is a function parameter `load`.
- Keras' global `MODEL_IMPLEMENTATION` attribute is a parameter
  `globalTag: Option<string>`. `None` means the attribute is not set.
- `jax.device_count()` is a positive parameter `deviceCount`.

Three details of the code the model keeps:

- The MaxText `positions` entry is a single row `[0 .. max_seq_len - 1]`
  (`np.arange(...)[None, :]`), not one row per batch entry.
- The KerasHub tag is the string `"KerasHub"`.
- A missing tokenizer raises `AssertionError`
  (kithara/dataset/text_completion.py:60-62).

The constructor's default arguments are kept as Dafny default parameters:
no column mapping, backend `"KerasHub"`, `max_seq_len` 1024, no formatting
function and no packing. So a dataset built without `model_type` resolves to
`"KerasHub"` when no global tag is set. The missing-type error is reached
only with an explicit unset or empty tag. `DefaultsClient` in
`text_completion.dfy` shows this. The per-device batch size of
`get_maxtext_model_input` defaults to 1.

`ModelImplementationType` is not part of this model. Its members are taken to
be the strings `"MaxText"` and `"KerasHub"`: the constructor's default is
`"KerasHub"`, and the error message names those two spellings.

## Model

| member | source | states |
|---|---|---|
| `TextCompletion.ChooseTokenizer` | kithara/dataset/text_completion.py:60-68 | Fails exactly when both the tokenizer and the handle are absent. A given tokenizer is used as is; otherwise the one loaded from the handle is used. |
| `TextCompletion.MergeColumnMapping` | kithara/dataset/text_completion.py:70-75 | The mapping always has `"text"`. Without a caller mapping it is `{"text": "text"}`. With one, its keys are the caller's keys plus `"text"`, every caller key keeps the caller's value, and `"text"` stays `"text"` unless the caller overrides it. |
| `TextCompletion.TextCompletionDataset.Create` | kithara/dataset/text_completion.py:47-75 | Construction fails with the assertion error exactly when neither tokenizer nor handle is given. Otherwise it yields a fresh valid dataset holding the chosen tokenizer, the merged mapping and the other arguments unchanged. |
| `TextCompletion.TextCompletionDataset.constructor` | kithara/dataset/text_completion.py:64-75 | Stores the configuration, with the column mapping merged from the default. |
| `TextCompletion.TextCompletionDataset.TaskTransform` | kithara/dataset/text_completion.py:77-81 | The formatting function is applied before the projection. Success holds exactly when the mapped column exists in the formatted record. The result then has exactly the key `"text"`, holding that column's value. A missing column is a `KeyError` naming the column. |
| `TextCompletion.TextCompletionDataset.ExpectedTokenization` | kithara/dataset/text_completion.py:83-98 | Fails with `KeyError("text")` without a text field and with `IndexError` when `max_seq_len` is 0; succeeds otherwise. Ids and mask are the tokenizer's output for `"<bos>" + text + "<eos>"` at `max_seq_len`. The labels have the ids' shape, position c holds the id at c + 1 of the same row, and the last position holds the pad id. |
| `TextCompletion.TextCompletionDataset.ModelTransform` | kithara/dataset/text_completion.py:83-98 | The imperative transform returns exactly `ExpectedTokenization` of the sample, errors included. |
| `TextCompletion.RollAndPadLabels` | kithara/dataset/text_completion.py:96-97 | Rolling the flattened ids into a 2-D array and writing the pad id into its last column, row by row, yields exactly the per-row left shift padded with the pad id. |
| `Tensors.RollThenPadIsRowShift` | kithara/dataset/text_completion.py:96-97 | For any array with n > 0 columns: reshaping the flattened roll and overwriting the last column equals shifting each row left by one and appending the pad id. |
| `Tensors.RollLeft` | kithara/dataset/text_completion.py:96 | `np.roll(s, -1)`: same length, element i is element i + 1 of the input, and the first element comes back at the end. |
| `TextCompletion.NextTokenLabelsAreRowShift` | kithara/dataset/text_completion.py:96-97 | The label invariant (same shape, left neighbour within the row, pad at the end) holds exactly when the labels equal the per-row shift. The invariant therefore pins the labels down completely. |
| `TextCompletion.TextCompletionDataset.ResolveModelType` | kithara/dataset/text_completion.py:118-121 | A set global tag wins. Otherwise the constructor's `model_type` is used. |
| `TextCompletion.TextCompletionDataset.ConvertToModelSpecificInput` | kithara/dataset/text_completion.py:118-148 | Succeeds exactly for the tags MaxText and KerasHub. An unset or empty tag raises the missing-type error; any other tag raises the unsupported-type error naming it. MaxText gives keys `tokens`, `segment_ids`, `positions`, with tokens = ids, segment ids = mask and positions = one row `0 .. max_seq_len - 1`. KerasHub gives keys `token_ids`, `padding_mask`, with ids and mask. Both give `y` = labels. |
| `TextCompletion.TextCompletionDataset.ProcessSample` | kithara/dataset/text_completion.py:150-165 | Equals the three stages composed, and the first failing stage decides the error: missing column, then zero length, then backend tag. Success holds exactly when the column exists, the length is positive and the tag is supported. The emitted labels satisfy the next-token invariant against the emitted token ids. |
| `TextCompletion.TextCompletionDataset.ToPackedDataset` | kithara/dataset/text_completion.py:167-168 | The packed wrapper holds this dataset and uses the tokenizer's pad id as its pad value. |
| `ModelTestUtils.MaxTextModelInput` | tests/model/utils.py:237-253 | Fails with `IndexError` on an input without rows and with the empty-stack `ValueError` when the per-device batch size is not positive; succeeds otherwise. On success the keys are exactly `tokens`, `segment_ids` and `positions`. It has `device_count * per_device_batch_size` rows of tokens, each equal to the first input row. Segment ids are all ones of shape (global batch, S). Every positions row is `0 .. S - 1`. |
| `ModelTestUtils.KerasHubModelInput` | tests/model/utils.py:270-275 | Keys are exactly `token_ids` and `padding_mask`. The token ids are the input unchanged. The padding mask is all ones with the input's (B, S) shape. |
| `ModelTestUtils.MaxTextLayoutsAgree` | tests/model/utils.py:237-253 | For one row of `max_seq_len` ids, an all-ones mask, one device and a per-device batch of one, the dataset's MaxText conversion yields exactly the builder's dictionary, with the labels as `y`. |
| `TextCompletion.Wrap` | kithara/dataset/text_completion.py:90-91 | The string handed to the tokenizer is `"<bos>"`, then the text unchanged, then `"<eos>"`: ten characters longer than the text. |
| `TextCompletion.TextCompletionDataset.Formatted` | kithara/dataset/text_completion.py:79-80 | Without a formatting function the record is unchanged. With one, the record is that function's result. |
| `TextCompletion.Falsy` | kithara/dataset/text_completion.py:123 | `not model_type` holds for an unset tag and for the empty string. Such a tag never has an input layout. |
| `TextCompletion.Supported` | kithara/dataset/text_completion.py:145 | A tag has an input layout exactly when it is set and is one of `"MaxText"` and `"KerasHub"`, the keys of `input_formats`. |
| `Tensors.Flatten` | kithara/dataset/text_completion.py:96 | The flattening that `np.roll` applies without an axis. The rows are laid end to end, and a (rows, n) array gives `Size(rows, n)` values. |
| `Tensors.Reshape` | kithara/dataset/text_completion.py:96 | Restores the (rows, n) shape after the roll. It gives `rows` rows of exactly `n` values. |
| `Tensors.OverwriteLastColumn` | kithara/dataset/text_completion.py:97 | `label_ids[:, -1] = pad`: same number of rows and same row lengths, the last position of every row is the pad id, and every other position is unchanged. |
| `Tensors.Ones` | tests/model/utils.py:242 | `ones((rows, n))`: shape (rows, n), and every entry is 1. |
| `Tensors.Arange` | kithara/dataset/text_completion.py:135 | `arange(n)`: length n, and position i holds i. |
| `Tensors.Replicate` | tests/model/utils.py:240 | `stack([row for _ in range(k)])`: exactly k rows, each equal to the given row. |
| `ModelTestUtils.Width` | tests/model/utils.py:238 | The S of `B, S = input_ids.shape`: for an array with at least one row whose rows all have n columns, it is n. |

## Left out

- Tokenizer internals (`HFtokenize`, `initialize_tokenizer`, `AutoTokenizer`) are abstract. So is setting `pad_token = "<pad>"`: the model only uses the resulting `padId`. `kithara/dataset/utils.py` is not part of this model.
- The `Dataset` base class, `PackedDataset`, the packing engine, the `Dataloader` and host sharding are not part of this model. `to_packed_dataset` is modelled only as the wrapper it builds and the pad value it passes.
- `source` is a plain sequence of records, stored and not iterated. The `ray.data.Dataset` behaviour is not modelled.
- Record values are strings, so the f-string `f"<bos>{text}<eos>"` is plain concatenation. Other value types and their `str` conversion are not modelled.
- A custom formatting function is a total function on records. One that raises is not modelled.
- `max_seq_len` is a `nat`. Negative lengths, which the code does not reject, are not modelled.
- Dtype casts (`int32`, float `ones`) are not modelled, because all values are mathematical integers.
- The rest of `tests/model/utils.py` is left out: array comparison with float tolerances, logits metrics, and Hugging Face inference.
- The example scripts and `setup.py` are left out: training orchestration, Ray, subprocesses and packaging.
- The tokenizer's shape promise (`FixedLength`) is a precondition of `TextCompletion.TextCompletionDataset.constructor` and `TextCompletion.TextCompletionDataset.Create`, not a check. The dataset code does not check it either: it belongs to the foreign tokenizer.
