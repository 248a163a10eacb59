# Evaluator and Recorder of a recurrent language model

This project is a Dafny model of `py/rnn/evaluator.py`, the part of an RNN
visualisation system that evaluates a trained recurrent language model.
It covers two things:

- the `Evaluator`, which picks which per-step signals (layer states, inputs,
  embeddings, outputs, gradients) become summary ops, averages loss and
  accuracy over a test stream, and drives a recorder one column at a time;
- the `Recorder`, which registers one evaluation document per input row,
  splits each step's batch into per-sample records stamped with the token id
  at the current step, buffers them, and pushes them to the evaluation store
  in batches.

Modules:

- `Wrappers`: `Option`, `Result`, and the Python exceptions the code can raise.
- `Arrays`: 2-D token-id arrays, the outcome of `np.array`, and column slicing.
- `Tensors`: graph tensors as handles with static shapes, layer states, and
  the static shape of `tf.stack(..., axis=1)`.
- `SignalGroups`: the construction of the summary ops in `Evaluator.__init__`.
- `Recording`: the `Recorder` as an immutable state machine over an
  evaluation store.
- `RecordingProperties`: the buffer invariant, and multi-call facts about the
  recorder.
- `Evaluation`: the evaluator itself, `evaluate`, and `evaluate_and_record`.

Some parts of the environment are passed in as parameters:

- The evaluation store is a log. It records the documents inserted by
  `insert_evaluation` and the batches sent by `push_evaluation_records`. A
  document's id is its position in the log.
- The compute runtime (`model.run` on a session) is a function argument.
  `evaluate` gets `nat -> Sums`, indexed by block number. `evaluate_and_record`
  gets `Step -> map<string, seq<T>>`, indexed by the column fed. The signal
  values are a type parameter `T`.
- Each driving method also returns the sequence of collaborator calls it made
  (reset, run, start, record), so their order is part of the contract.

These behaviours of the code are easy to miss:

- `start` never clears `eval_doc_id`, the buffer or `step`. Starting twice
  therefore accumulates ids. `SecondStartSkews` shows the consequence: id
  and record counts no longer match.
- `record` never advances `step`. Every record of a session is therefore
  stamped with the token of column 0. This is a defect (see Findings). The
  recorder is modelled as written, and beside it a corrected `record` that
  advances `step` and a corrected `start` that puts `step` back at column 0,
  so that a recorder reused for a second input stamps that input from its
  first column. The model of `evaluate_and_record` drives the corrected
  pair.
- `flush` with nothing pending is not a no-op. Popping the absent `eval_ids`
  key raises `KeyError`.
- `evaluate` prints its averages. The model returns them.
- With `verbose` set and an input of 1 to 9 columns, the progress test
  `i % (input_size // 10)` divides by zero right after the first record.
- `evaluate_and_record` never calls `flush` after the loop. Records still
  pending when it ends are not pushed; the model returns them in the
  recorder's buffer.

## Model

| member | source | states |
|---|---|---|
| Arrays.ColumnSlice | py/rnn/evaluator.py:119 | `a[:, i:i+1]` keeps every row and holds exactly column `i`, or nothing once `i` is past the last column |
| Arrays.SliceColumns | py/rnn/evaluator.py:120 | slicing the second axis fails (IndexError) exactly on arrays of rank below 2; a 2-D array gives its column slice |
| Tensors.StackOfBatches | py/rnn/evaluator.py:42-45 | stacking k layer tensors of shape `[batch, units]` on axis 1 gives `[batch, k, units]`, as the comment promises |
| SignalGroups.BucketIsGroup | py/rnn/evaluator.py:35-41 | the loop over layers appends to each key exactly that key's group (every layer's contribution, in layer order), and creates a key only when some layer contributes |
| SignalGroups.GroupSizes | py/rnn/evaluator.py:35-41 | every layer feeds `state` or both `state_c` and `state_h`: `state` plus `state_c` sizes add up to the layer count, `state_c` and `state_h` have equal size, and no other key gets anything |
| SignalGroups.StateOps | py/rnn/evaluator.py:34-45 | with `log_state`, the ops hold exactly the nonempty state groups, each stacked; without it, none; only the three state keys occur |
| SignalGroups.LoggedOps | py/rnn/evaluator.py:33-51 | each of `input`, `input_embedding` and `output` is present iff its flag(s) are set, and then holds its model tensor; the state keys are as in StateOps; no other key occurs |
| SignalGroups.SummaryOpsAsWritten | py/rnn/evaluator.py:52-56 | as written, `log_gradients` makes construction fail with AttributeError on `summary_ops`; otherwise no gradient op is present |
| SignalGroups.SummaryOps | py/rnn/evaluator.py:52-56 | corrected: `inputs_gradients` is present iff `log_gradients`, holding the gradient of the loss with respect to the model inputs; every other key is unchanged |
| SignalGroups.SummaryOpsAgree | py/rnn/evaluator.py:52-56 | whenever the as-written construction succeeds, it equals the corrected one |
| SignalGroups.GroupShapes | py/rnn/evaluator.py:42-45 | if every layer tensor is `[B, U]`, every logged state op stacks to `[B, k, U]`, where k is the size of its group |
| SignalGroups.MixedLayersExample | py/rnn/evaluator.py:33-45 | plain, LSTM and plain layers give `state` = layers 0 and 2 (shape `[B, 2, U]`), and `state_c` / `state_h` = layer 1 (shape `[B, 1, U]`) |
| Recording.NewRecorder | py/rnn/evaluator.py:131-139 | a new recorder keeps the given data name, model name and `flush_every`; it has no ids and no buffer keys (`Fresh`), batch size 1, no inputs and step 0 |
| Recording.InsertRows | py/rnn/evaluator.py:151-152 | the store gains one document per row, in row order, after the earlier ones; the returned ids are those documents' consecutive positions in the log; pushes are untouched |
| Recording.Start | py/rnn/evaluator.py:141-152 | fails with AssertionError iff the array is not 2-D; otherwise sets batch size and inputs, appends the rows' documents in row order, and appends their consecutive ids after the earlier ids; leaves the buffer, `step` and the names alone |
| Recording.StartNamesRows | py/rnn/evaluator.py:151-152 | a 2-D `start` keeps the earlier ids and documents as a prefix; the id it adds for row i lies among the new documents and names row i's document; the added ids are strictly increasing, hence distinct |
| Recording.StartAtFirstColumn | py/rnn/evaluator.py:139-152 | corrected `start`: fails exactly as `start`; otherwise the same store and recorder as `start`, except that `step` is back at column 0 |
| Recording.Batch | py/rnn/evaluator.py:161-163 | succeeds iff every signal has a row per sample and (nonempty batch) inputs exist with that column; TypeError before `start`, otherwise IndexError; record `i` has exactly the signal names plus `word_id`, holds sample `i`'s row of every signal, and `word_id = inputs[i, step]` (`SampleRecord`) |
| Recording.Record | py/rnn/evaluator.py:154-167 | fails exactly as Batch; otherwise appends the batch and all of `eval_doc_id` to the buffer and pushes it iff at least `flush_every` ids are pending; afterwards fewer than `flush_every` ids are pending (for `flush_every` of 1 or more) |
| Recording.RecordAdvancing | py/rnn/evaluator.py:154-167 | corrected `record`: fails exactly when `record` does, raising the same exception (IndexError for a short bundle or column, TypeError before `start`); otherwise the same buffer and store as `record`, then `step` moves to the next column |
| Recording.Flush | py/rnn/evaluator.py:169-170 | pushes both buffer entries as one batch and removes them; KeyError on `eval_ids` if it is absent, else on `records` if that is absent |
| RecordingProperties.StartAligns | py/rnn/evaluator.py:148-152 | the first `start` on a fresh recorder sets up the buffer invariant: one id per sample, and the buffers paired; so does the corrected `start`, for the corrected `record`'s invariant |
| RecordingProperties.AppendBatchAligned | py/rnn/evaluator.py:162-165 | appending one stamped batch and one copy of the ids keeps position j pairing sample `j mod B`'s id with its stamped record |
| RecordingProperties.RecordKeepsAligned | py/rnn/evaluator.py:161-167 | `record` preserves the buffer invariant |
| RecordingProperties.AppendBatchTrailing | py/rnn/evaluator.py:162-165 | corrected `record`: appending a batch stamped at `step` and then advancing `step` keeps every pending record stamped at the column of the step that produced it |
| RecordingProperties.RecordAdvancingKeepsAligned | py/rnn/evaluator.py:161-167 | the corrected `record` preserves that invariant: ids paired with samples, each record stamped with its own step's column |
| RecordingProperties.RecordPushPaired | py/rnn/evaluator.py:164-170 | as written: a record that reaches `flush_every` pushes exactly one batch after the earlier ones; it holds as many ids as records (those pending plus one batch), and position j pairs sample `j mod B`'s id with a record stamped with that sample's token at `step` |
| RecordingProperties.TrailingPush | py/rnn/evaluator.py:169-170 | with the corrected `record`, flushing pushes whole batches of consecutive columns ending at the last column recorded: position j pairs sample `j mod B`'s id with a record stamped with that sample's token at its own batch's column |
| RecordingProperties.RecordAdvancingPushTrailing | py/rnn/evaluator.py:164-170 | a corrected record that reaches `flush_every` pushes exactly one batch after the earlier ones, holding the ids pending before it plus one per sample, laid out as TrailingPush says, ending at the column just recorded |
| RecordingProperties.FlushKeepsAligned | py/rnn/evaluator.py:169-170 | `flush` preserves the buffer invariant |
| RecordingProperties.SecondFlushFails | py/rnn/evaluator.py:169-170 | a flush straight after a successful flush raises KeyError on `eval_ids` |
| RecordingProperties.FlushOnFreshFails | py/rnn/evaluator.py:135 | a flush before any record (after construction, or after `start`) raises KeyError |
| RecordingProperties.RecordSkew | py/rnn/evaluator.py:164-165 | each record widens the gap between pending ids and records by `len(eval_doc_id) - batch_size`, whether they stay pending or are pushed |
| RecordingProperties.SecondStartSkews | py/rnn/evaluator.py:151-152 | after a second `start`, the next record keeps or pushes unequal numbers of ids and records |
| RecordingProperties.FlushCadenceExample | py/rnn/evaluator.py:166-167 | with `flush_every = 3` and two samples, the first record keeps 2 ids pending and the second pushes 4 ids with 4 records |
| RecordingProperties.RecordRereadsColumn | py/rnn/evaluator.py:163 | as written, the record after a record stamps the same column `step` again |
| RecordingProperties.AdvancingReadsNextColumn | py/rnn/evaluator.py:163 | with the corrected transition, the next record stamps column `step + 1` |
| RecordingProperties.StuckColumnExample | py/rnn/evaluator.py:139 | one sample `[7, 8]`, two steps: as written, both records are stamped 7 |
| RecordingProperties.AdvancingColumnExample | py/rnn/evaluator.py:163 | the same two steps with the corrected transition are stamped 7, then 8 |
| Evaluation.NewEvaluator | py/rnn/evaluator.py:25-56 | as written, construction fails with AttributeError iff `log_gradients`; otherwise the evaluator's ops equal the corrected summary ops, which then hold no gradient op |
| Evaluation.Evaluate | py/rnn/evaluator.py:70-86 | resets state once and then runs blocks 0..n-1 in order; the averages are the summed loss and accuracy divided by `input_size * record_every`; ZeroDivisionError iff that product is 0 |
| Evaluation.PerTokenLoss | py/rnn/evaluator.py:84-85 | if every block's loss is `record_every * l`, the reported average loss is `l`: it is normalised per token, not per block |
| Evaluation.ColumnCallsExtend | py/rnn/evaluator.py:118-123 | one more iteration extends the run/record call pairs by column i |
| Evaluation.FeedColumn | py/rnn/evaluator.py:119-123 | one iteration: IndexError with no calls if the targets cannot be sliced; otherwise it runs column i (with a target slice iff targets exist) and records the returned bundle with the corrected `record`; it fails exactly when that does, advances `step` by one on success, and keeps the buffer invariant |
| Evaluation.RecordableAt | py/rnn/evaluator.py:161-163 | a recorder started on an input and standing at one of its columns can record a bundle exactly when every signal has a row for each of the input's rows |
| Evaluation.DriveStops | py/rnn/evaluator.py:119-124 | with the corrected `record`, the loop stops at a column whose targets cannot be sliced or whose bundle misses a row with IndexError, leaving the recorder and store as they were; at a column whose progress test divides by zero it raises ZeroDivisionError after recording that column |
| Evaluation.DriveRaises | py/rnn/evaluator.py:119-124 | started on the input, the loop raises only IndexError or ZeroDivisionError; IndexError leaves `step` at the column that failed, whose targets cannot be sliced or whose bundle misses a row; ZeroDivisionError needs `verbose` and fewer than ten columns and comes right after the first column is recorded |
| Evaluation.DriveContinues | py/rnn/evaluator.py:119-124 | with the corrected `record`, a column that passes all three goes on to the next column with `step` one further, inputs and batch size unchanged |
| Evaluation.DriveFinishes | py/rnn/evaluator.py:118-125 | with the corrected `record`, the loop from column i finishes without error iff no progress test can divide by zero, the targets can be sliced, and every remaining column's bundle has a row per sample; `step` then equals the number of columns, one past the last column index |
| Evaluation.CarriedKept | py/rnn/evaluator.py:162-165 | appending column i's batch leaves every earlier pending record where it was, with the same column: still its sample's share of the bundle run for that column, stamped with the sample's token there |
| Evaluation.CarriedNew | py/rnn/evaluator.py:161-165 | the records appended for column i are, at each new position j, sample `j mod B`'s share of the bundle run for column i, stamped with that sample's token at column i |
| Evaluation.AppendedCarried | py/rnn/evaluator.py:161-165 | after a corrected record of column i, every pending record is its sample's share of the bundle run for the column it came from, stamped with that column's token and paired with the sample's id |
| Evaluation.CarriedPush | py/rnn/evaluator.py:169-170 | flushing such a buffer pushes a batch of whole batches of consecutive columns in which every record is its sample's share of its own column's bundle (`PushCarries`) |
| Evaluation.ColumnKeepsCarried | py/rnn/evaluator.py:161-170 | a corrected record of column i keeps that buffer property and the ids and documents; it either pushes nothing or pushes one batch, after the earlier ones, that carries its columns up to i |
| Evaluation.DriveColumnCarries | py/rnn/evaluator.py:119-124 | one column of the loop does what ColumnKeepsCarried says, and the loop either stops there with that recorder and store or goes on from column i + 1 with them |
| Evaluation.DrivePushes | py/rnn/evaluator.py:118-125 | the loop from column i adds no document, keeps the earlier pushes as a prefix, leaves the buffer carrying its columns, and every batch it pushes pairs position j with sample `j mod B`'s id and holds that sample's share of the bundle run for its batch's column, stamped with that column's token |
| Evaluation.FreshGridRecorded | py/rnn/evaluator.py:112-125 | from a fresh recorder, the corrected `start` and the loop leave the store with exactly the rows' documents added and its earlier pushes kept, every pushed batch carrying its columns' bundles, the pending records likewise, and fewer than `flush_every` ids pending |
| Evaluation.StartedCarries | py/rnn/evaluator.py:139-152 | the corrected `start` on a fresh recorder stands at column 0 with nothing buffered; its ids are the log positions of the documents just added, in row order; the store gains exactly those documents and keeps its pushes |
| Evaluation.DriveKeeps | py/rnn/evaluator.py:118-125 | along the loop, with the corrected `record`, the flush cadence is kept, the buffer invariant and the flush bound survive every column, and an error-free run moves `step` on once per column |
| Evaluation.ColumnIteration | py/rnn/evaluator.py:119-124 | one iteration is exactly one column of the loop's reference outcome: an error ends the loop there (IndexError, with no call, when the targets cannot be sliced), otherwise the loop continues at column i + 1; `step` moves on once the column is recorded, and a failing record leaves the recorder unchanged; the calls grow by this column's run and record iff the targets can be sliced |
| Evaluation.RecordFrom | py/rnn/evaluator.py:118-125 | with the corrected `record`, the loop from column i ends with exactly the error, recorder and store of the reference loop `Drive`; calls are one run and one record per column fed, in order: all columns when there is no error, none when the targets cannot be sliced, and after any other error one pair per column recorded plus the pair of the column whose record failed; verbose with 1..9 columns stops at the first column |
| Evaluation.RecordColumns | py/rnn/evaluator.py:118-125 | with the corrected `record`, the error, recorder and store are exactly those of `Drive` from column 0, so every pushed batch is the one the reference loop pushes; calls as in RecordFrom, counted from the recorder's `step`; without error `step` advanced once per column; verbose with 1..9 columns stops after the first record with ZeroDivisionError; the buffer invariant and the flush bound survive |
| Evaluation.RecordGrid | py/rnn/evaluator.py:112-125 | with the corrected `start` and `record`: start, reset, then the loop, whose outcome is `Drive` from the started recorder; it finishes without error iff the input is feedable, and then `step` equals the number of columns (one past the last column index); verbose with 1..9 columns raises ZeroDivisionError right after a successful first record; the only other error is IndexError, at the column `step` stands at, whose targets cannot be sliced or whose bundle misses a row; the calls are start, reset, then one run/record pair per column reached (none when the targets cannot be sliced); from a fresh recorder the store gains exactly the rows' documents and keeps its earlier pushes, every batch pushed pairs position j with row `j mod B`'s document id and holds that row's share of the bundle run for its batch's column, stamped with that column's token, the records left pending satisfy the same, and fewer than `flush_every` ids remain pending |
| Evaluation.EvaluateAndRecord | py/rnn/evaluator.py:101-125 | TypeError (with the source's message) on failing conversions, inputs first, before any call; AssertionError from `start` on a non-2-D array, after the start call only; otherwise, with the corrected `start` and `record`, exactly as RecordGrid, including which error the loop raises and the calls made up to it |

## Left out

- The TensorFlow graph and session are not modelled. `rnn_.unroll` is
  represented by the `ModelHandle` it returns, and `model.run` is a function
  argument. What a run computes, its hidden state, `refresh_state` and the
  `batch_size` argument therefore all live inside that argument.
- `tf.stack` raising on layer tensors of different shapes is not modelled.
  `StackShape` returns None for such groups, but construction does not fail.
- Conversion by `np.array` is left abstract. Each argument arrives already
  converted: a 2-D array, an array of another rank, or a failure carrying
  its type name. Arrays of rank 3 and up are sliced without modelling their
  contents.
- The database calls are modelled only as the log described above. Storage
  failures and the real id scheme are out of scope, and `io_utils.py` (file
  handling) is not part of this model.
- Printing is not modelled: the progress lines, the "inputs too long"
  warning above 10000 columns, and the summary line. The `i % 500` test in
  `evaluate` cannot fail, so nothing about it is modelled.
- Python state after an exception is not modelled: the model returns the
  state from before the failing call. Two effects of this:
  - `flush` raising on `records` after already popping `eval_ids` cannot
    happen from a reachable state.
  - In `evaluate_and_record`, batches pushed while earlier columns were
    recorded remain in the returned store.
- The `assert isinstance(rnn_, rnn.RNN)` type check is left out. So is the
  `int()` cast of the stamped token.
- Dictionary iteration order is not modelled. Summary ops and records are maps.
- Evaluation.Evaluate: `verbose` and `refresh_state` are not parameters,
  because they only affect printing and the runtime argument.
- Evaluation.Evaluate: loss and accuracy are exact reals, so the
  floating-point rounding of the sums and of the division at
  py/rnn/evaluator.py:79-85 is not modelled.

## Findings

| source | as written | input that shows it | evidently intended | confidence | as-written member | corrected member |
|---|---|---|---|---|---|---|
| py/rnn/evaluator.py:55 | with `log_gradients`, the gradient is stored into `self.summary_ops` before that attribute is assigned at line 56 | `Evaluator(rnn_, log_gradients=True)` raises AttributeError | add `inputs_gradients` to the local `summary_ops` | high (not executed) | SignalGroups.SummaryOpsAsWritten | SignalGroups.SummaryOps |
| py/rnn/evaluator.py:139 | `self.step` starts at 0 and is never advanced, so every record stamps column 0 | one sample with tokens `[7, 8]`, two `record` calls: both records get `word_id` 7 | after each `record`, step moves to the next column, so the second record gets 8; `start` puts step back at column 0 (`Recording.StartAtFirstColumn`) | high (not executed) | RecordingProperties.StuckColumnExample | Recording.RecordAdvancing |

The rest of the model uses the corrected definitions:

- `Evaluation.NewEvaluator` keeps the as-written AttributeError under
  `log_gradients`, since that is what construction does. In every other case
  its ops equal `SignalGroups.SummaryOps` (`SignalGroups.SummaryOpsAgree`), so
  no `inputs_gradients` op ever reaches an evaluator.
- `Evaluation.EvaluateAndRecord` starts with `Recording.StartAtFirstColumn` and
  records with `Recording.RecordAdvancing`; `Evaluation.Drive` is the
  reference definition of its column loop.
  Under it, each record is stamped with the token of its own column
  (`RecordingProperties.RecordAdvancingKeepsAligned`), and the same two steps
  that expose the defect stamp 7, then 8
  (`RecordingProperties.AdvancingColumnExample`).
