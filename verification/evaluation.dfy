/** The `Evaluator` of py/rnn/evaluator.py:19-126: construction, the averaging
    of `evaluate`, and the driving loop of `evaluate_and_record`.

    The compute runtime is a parameter: `run` gives the realized values of a
    call from the call's position in the session (and, when recording, from
    the slices it is fed). The model's hidden state, the feeders and the
    evaluator's fixed `eval_ops`, stride and `refresh_state` are what make
    one call differ from another, and they stay inside that function. */
module Evaluation {

  import opened Wrappers
  import opened Arrays
  import opened Tensors
  import opened SignalGroups
  import opened Recording
  import opened RecordingProperties

  datatype Evaluator = Evaluator(recordEvery: int, model: ModelHandle, summaryOps: map<string, Signal>)

  /** `Evaluator(rnn_, batch_size, record_every, ...)` (py/rnn/evaluator.py:25-56),
      given the model `rnn_.unroll` returned. It fails exactly when
      `log_gradients` is set; otherwise its summary ops are those of the
      corrected construction. */
  function NewEvaluator(model: ModelHandle, recordEvery: int, f: Flags, mapToEmbedding: bool): (r: Result<Evaluator>)
    ensures r.Err? <==> f.logGradients
    ensures r.Err? ==> r.error == AttributeError("summary_ops")
    ensures r.Ok? ==> r.value == Evaluator(recordEvery, model, SummaryOps(model, f, mapToEmbedding))
  {
    SummaryOpsAgree(model, f, mapToEmbedding);
    match SummaryOpsAsWritten(model, f, mapToEmbedding)
    case Err(e) => Err(e)
    case Ok(ops) => Ok(Evaluator(recordEvery, model, ops))
  }

  /** The collaborator calls a session makes, in order. */
  datatype Call =
    | ResetState
    | RunBlock(index: nat)
    | StartRecorder
    | RunStep(step: Step)
    | RecordStep(index: nat)

  /** One column fed to the model by `evaluate_and_record`. */
  datatype Step = Step(index: nat, inputs: NdArray, targets: Option<NdArray>)

  /** The `sum_ops` values of one `run` call. */
  datatype Sums = Sums(loss: real, accuracy: real)

  datatype Averages = Averages(loss: real, accuracy: real)

  // ---------------------------------------------------------------- evaluate

  /** Reference sums of the first `n` calls' `loss` and `acc-1`. */
  function TotalLoss(run: nat -> Sums, n: nat): real {
    if n == 0 then 0.0 else TotalLoss(run, n - 1) + run(n - 1).loss
  }

  function TotalAccuracy(run: nat -> Sums, n: nat): real {
    if n == 0 then 0.0 else TotalAccuracy(run, n - 1) + run(n - 1).accuracy
  }

  /** `range(input_size)` runs `max(input_size, 0)` times. */
  function Count(inputSize: int): nat {
    if inputSize < 0 then 0 else inputSize
  }

  /** The per-token averages `evaluate` reports: the sums over all calls
      divided by `input_size * record_every` (Python true division). */
  function Averaged(run: nat -> Sums, inputSize: int, recordEvery: int): Result<Averages> {
    var tokens := inputSize * recordEvery;
    if tokens == 0 then Err(ZeroDivisionError)
    else Ok(Averages(TotalLoss(run, Count(inputSize)) / tokens as real,
                     TotalAccuracy(run, Count(inputSize)) / tokens as real))
  }

  /** `evaluate` (py/rnn/evaluator.py:58-86): reset the state once, run
      `input_size` blocks in order, and average. The printed progress lines
      are left out; the summary line's two numbers are the result. */
  method Evaluate(ev: Evaluator, inputSize: int, run: nat -> Sums) returns (res: Result<Averages>, calls: seq<Call>)
    ensures |calls| == 1 + Count(inputSize) && calls[0] == ResetState
    ensures forall i :: 0 <= i < Count(inputSize) ==> calls[1 + i] == RunBlock(i)
    ensures res.Err? <==> inputSize * ev.recordEvery == 0
    ensures res.Err? ==> res.error == ZeroDivisionError
    ensures res == Averaged(run, inputSize, ev.recordEvery)
  {
    calls := [ResetState];
    var totalLoss: real := 0.0;
    var acc: real := 0.0;
    var i: nat := 0;
    while i < Count(inputSize)
      invariant i <= Count(inputSize)
      invariant totalLoss == TotalLoss(run, i) && acc == TotalAccuracy(run, i)
      invariant |calls| == 1 + i && calls[0] == ResetState
      invariant forall j :: 0 <= j < i ==> calls[1 + j] == RunBlock(j)
    {
      var sums := run(i);
      calls := calls + [RunBlock(i)];
      totalLoss := totalLoss + sums.loss;
      acc := acc + sums.accuracy;
      i := i + 1;
    }
    var tokens := inputSize * ev.recordEvery;
    if tokens == 0 {
      return Err(ZeroDivisionError), calls;
    }
    res := Ok(Averages(totalLoss / tokens as real, acc / tokens as real));
  }

  lemma {:induction false} UniformTotal(run: nat -> Sums, n: nat, perBlock: real)
    requires forall i :: 0 <= i < n ==> run(i).loss == perBlock
    ensures TotalLoss(run, n) == n as real * perBlock
  {
    if n > 0 {
      UniformTotal(run, n - 1, perBlock);
    }
  }

  /** The normalization is per token, not per block: if every block of
      `record_every` tokens has loss `record_every * l`, the average is `l`. */
  lemma PerTokenLoss(run: nat -> Sums, inputSize: nat, recordEvery: nat, l: real)
    requires inputSize > 0 && recordEvery > 0
    requires forall i :: 0 <= i < inputSize ==> run(i).loss == recordEvery as real * l
    ensures Averaged(run, inputSize, recordEvery).Ok?
    ensures Averaged(run, inputSize, recordEvery).value.loss == l
  {
    UniformTotal(run, inputSize, recordEvery as real * l);
    var tokens := inputSize * recordEvery;
    assert tokens as real == inputSize as real * recordEvery as real;
    assert tokens > 0;
    assert TotalLoss(run, inputSize) == tokens as real * l;
  }

  // ---------------------------------------------------------------- evaluate_and_record

  function ConversionMessage(what: string, typeName: string): string {
    "Unable to convert " + what + " of type " + typeName + " into numpy array!"
  }

  /** Both conversions succeed (targets may be absent). */
  ghost predicate Converted(inputs: Conversion, targets: Option<Conversion>) {
    inputs.Converts? && (targets.None? || targets.value.Converts?)
  }

  function TargetArray(targets: Option<Conversion>): Option<NdArray>
    requires targets.None? || targets.value.Converts?
  {
    if targets.None? then None else Some(targets.value.converted)
  }

  /** `targets[:, i:i+1]`, or None without targets. */
  function TargetSlice(targets: Option<NdArray>, i: nat): Option<NdArray> {
    match targets
    case None => None
    case Some(a) => match SliceColumns(a, i) case Ok(s) => Some(s) case Err(_) => None
  }

  /** The column fed at step `i`. */
  function StepAt(g: Grid, targets: Option<NdArray>, i: nat): Step {
    Step(i, TwoD(ColumnSlice(g, i)), TargetSlice(targets, i))
  }

  /** The run/record call pairs of the first `|calls| / 2` columns, in
      column order; each run is fed targets exactly when the session has them. */
  ghost predicate ColumnCalls(calls: seq<Call>, g: Grid, targets: Option<NdArray>) {
    && |calls| % 2 == 0
    && forall j :: 0 <= j < |calls| / 2 ==>
         && calls[2 * j] == RunStep(StepAt(g, targets, j))
         && (calls[2 * j].step.targets.Some? <==> targets.Some?)
         && calls[2 * j + 1] == RecordStep(j)
  }

  lemma ColumnCallsExtend(calls: seq<Call>, g: Grid, targets: Option<NdArray>, i: nat)
    requires ColumnCalls(calls, g, targets) && |calls| == 2 * i
    requires StepAt(g, targets, i).targets.Some? <==> targets.Some?
    ensures ColumnCalls(calls + [RunStep(StepAt(g, targets, i)), RecordStep(i)], g, targets)
  {
    var calls' := calls + [RunStep(StepAt(g, targets, i)), RecordStep(i)];
    forall j | 0 <= j < |calls'| / 2
      ensures calls'[2 * j] == RunStep(StepAt(g, targets, j))
      ensures calls'[2 * j + 1] == RecordStep(j)
    {
      if j < i {
        assert calls'[2 * j] == calls[2 * j] && calls'[2 * j + 1] == calls[2 * j + 1];
      }
    }
  }

  /** Whether `targets[:, i:i+1]` can be taken (it cannot on an array of rank
      below 2, whatever `i`). */
  predicate TargetsSliceable(targets: Option<NdArray>) {
    targets.None? || targets.value.TwoD? || targets.value.ndim >= 2
  }

  /** One iteration's slice, run and record (py/rnn/evaluator.py:119-123).
      Fails without any call when the targets cannot be sliced; otherwise
      runs the model on column `i` and records the bundle it returns with the
      corrected `record`, which moves `step` on. */
  method FeedColumn<T>(g: Grid, targets: Option<NdArray>, i: nat, rec: Recorder<T>, st: Store<T>,
                       run: Step -> map<string, seq<T>>)
    returns (err: Option<Error>, rec': Recorder<T>, st': Store<T>, pair: seq<Call>)
    ensures !TargetsSliceable(targets) ==> err == Some(IndexError) && pair == []
    ensures TargetsSliceable(targets) ==>
              && pair == [RunStep(StepAt(g, targets, i)), RecordStep(i)]
              && (StepAt(g, targets, i).targets.Some? <==> targets.Some?)
              && var recorded := RecordAdvancing(rec, st, run(StepAt(g, targets, i)));
                 (err.None? <==> recorded.Ok?)
                 && (recorded.Ok? ==> (rec', st') == recorded.value)
                 && (recorded.Err? ==> err == Some(recorded.error))
    ensures err.Some? ==> rec' == rec && st' == st
    ensures err.None? ==> rec'.step == rec.step + 1
    ensures rec'.flushEvery == rec.flushEvery
    ensures Bounded(rec) ==> Bounded(rec')
  {
    rec', st', pair := rec, st, [];
    var targetsSlice: Option<NdArray> := None;
    if targets.Some? {
      var sliced := SliceColumns(targets.value, i);
      if sliced.Err? {
        return Some(sliced.error), rec', st', pair;
      }
      targetsSlice := Some(sliced.value);
    }
    var step := Step(i, TwoD(ColumnSlice(g, i)), targetsSlice);
    assert step == StepAt(g, targets, i);
    var evals := run(step);
    pair := [RunStep(step), RecordStep(i)];
    var recorded := RecordAdvancing(rec, st, evals);
    if recorded.Err? {
      return Some(recorded.error), rec', st', pair;
    }
    if AlignedAdvancing(rec) {
      RecordAdvancingKeepsAligned(rec, st, evals);
    }
    rec', st' := recorded.value.0, recorded.value.1;
    err := None;
  }

  /** Reference definition of the column loop of py/rnn/evaluator.py:118-125
      from column `i` on: the error it raises, if any, and the recorder and
      store it leaves. Each column is sliced, run and recorded with the
      corrected `record`; then the verbose progress test `i % (length // 10)`
      divides by zero when there are fewer than ten columns. */
  function Drive<T>(g: Grid, targets: Option<NdArray>, rec: Recorder<T>, st: Store<T>,
                    run: Step -> map<string, seq<T>>, verbose: bool, i: nat): (Option<Error>, Recorder<T>, Store<T>)
    decreases g.width - i, 1
  {
    if i >= g.width then (None, rec, st)
    else DriveColumn(g, targets, rec, st, run, verbose, i)
  }

  /** `Drive` at a column `i` that is still to be processed. */
  function DriveColumn<T>(g: Grid, targets: Option<NdArray>, rec: Recorder<T>, st: Store<T>,
                          run: Step -> map<string, seq<T>>, verbose: bool, i: nat): (Option<Error>, Recorder<T>, Store<T>)
    requires i < g.width
    decreases g.width - i, 0
  {
    if !TargetsSliceable(targets) then (Some(IndexError), rec, st)
    else match RecordAdvancing(rec, st, run(StepAt(g, targets, i)))
      case Err(e) => (Some(e), rec, st)
      case Ok((rec1, st1)) =>
        if verbose && g.width / 10 == 0 then (Some(ZeroDivisionError), rec1, st1)
        else Drive(g, targets, rec1, st1, run, verbose, i + 1)
  }

  /** One column of `Drive`, given what `FeedColumn` reports for it. */
  lemma DriveStep<T>(g: Grid, targets: Option<NdArray>, rec: Recorder<T>, st: Store<T>,
                     run: Step -> map<string, seq<T>>, verbose: bool, i: nat,
                     err: Option<Error>, rec1: Recorder<T>, st1: Store<T>)
    requires i < g.width
    requires err.Some? ==> rec1 == rec && st1 == st
    requires !TargetsSliceable(targets) ==> err == Some(IndexError)
    requires TargetsSliceable(targets) ==>
               var recorded := RecordAdvancing(rec, st, run(StepAt(g, targets, i)));
               && (err.None? <==> recorded.Ok?)
               && (recorded.Ok? ==> (rec1, st1) == recorded.value)
               && (recorded.Err? ==> err == Some(recorded.error))
    ensures err.Some? ==> Drive(g, targets, rec, st, run, verbose, i) == (err, rec, st)
    ensures err.None? && verbose && g.width / 10 == 0 ==>
              Drive(g, targets, rec, st, run, verbose, i) == (Some(ZeroDivisionError), rec1, st1)
    ensures err.None? && !(verbose && g.width / 10 == 0) ==>
              Drive(g, targets, rec, st, run, verbose, i) == Drive(g, targets, rec1, st1, run, verbose, i + 1)
  {
  }

  /** What lets the loop run from column `i` to the end: nothing is left, or
      the progress test cannot divide by zero, the targets can be sliced, and
      every remaining column's bundle covers all of the input's rows. */
  ghost predicate Feedable<T>(g: Grid, targets: Option<NdArray>, run: Step -> map<string, seq<T>>, verbose: bool, i: nat) {
    i >= g.width ||
    (&& (!verbose || g.width >= 10)
     && TargetsSliceable(targets)
     && forall j :: i <= j < g.width ==> Covers(run(StepAt(g, targets, j)), |g.rows|))
  }

  /** `Feedable` one column at a time. */
  lemma FeedableStep<T>(g: Grid, targets: Option<NdArray>, run: Step -> map<string, seq<T>>, verbose: bool, i: nat)
    requires i < g.width
    ensures Feedable(g, targets, run, verbose, i) <==>
              && (!verbose || g.width >= 10) && TargetsSliceable(targets)
              && Covers(run(StepAt(g, targets, i)), |g.rows|)
              && Feedable(g, targets, run, verbose, i + 1)
  {
  }

  /** A recorder started on `g` and standing at column `i` can record a
      bundle exactly when the bundle covers every row of `g`. */
  lemma RecordableAt<T>(g: Grid, rec: Recorder<T>, msg: map<string, seq<T>>, i: nat)
    requires i < g.width
    requires rec.inputs == Some(g) && rec.batchSize == |g.rows| && rec.step == i
    ensures Recordable(rec, msg) <==> Covers(msg, |g.rows|)
  {
  }

  /** A recorder started on `g` and standing at column `i` stops the loop
      there when the targets cannot be sliced, the column's bundle misses a
      row, or the progress test divides by zero. The first two raise
      IndexError (slicing the targets, or indexing the bundle) and leave the
      recorder and store as they were; the progress test raises
      ZeroDivisionError after the column has been recorded. */
  lemma DriveStops<T>(g: Grid, targets: Option<NdArray>, rec: Recorder<T>, st: Store<T>,
                      run: Step -> map<string, seq<T>>, verbose: bool, i: nat)
    requires i < g.width
    requires rec.inputs == Some(g) && rec.batchSize == |g.rows| && rec.step == i
    requires || !TargetsSliceable(targets)
             || !Covers(run(StepAt(g, targets, i)), |g.rows|)
             || (verbose && g.width / 10 == 0)
    ensures Drive(g, targets, rec, st, run, verbose, i).0.Some?
    ensures !TargetsSliceable(targets) || !Covers(run(StepAt(g, targets, i)), |g.rows|) ==>
              Drive(g, targets, rec, st, run, verbose, i) == (Some(IndexError), rec, st)
    ensures TargetsSliceable(targets) && Covers(run(StepAt(g, targets, i)), |g.rows|) ==>
              var next := RecordAdvancing(rec, st, run(StepAt(g, targets, i)));
              && next.Ok?
              && Drive(g, targets, rec, st, run, verbose, i) == (Some(ZeroDivisionError), next.value.0, next.value.1)
  {
    RecordableAt(g, rec, run(StepAt(g, targets, i)), i);
  }

  /** A recorder started on `g` and standing at column `i` records a bundle
      that covers every row and, when the progress test cannot divide by
      zero, hands the loop on to the next column, one `step` further. */
  lemma DriveContinues<T>(g: Grid, targets: Option<NdArray>, rec: Recorder<T>, st: Store<T>,
                          run: Step -> map<string, seq<T>>, verbose: bool, i: nat)
    returns (rec1: Recorder<T>, st1: Store<T>)
    requires i < g.width && TargetsSliceable(targets) && !(verbose && g.width / 10 == 0)
    requires rec.inputs == Some(g) && rec.batchSize == |g.rows| && rec.step == i
    requires Covers(run(StepAt(g, targets, i)), |g.rows|)
    ensures Drive(g, targets, rec, st, run, verbose, i) == Drive(g, targets, rec1, st1, run, verbose, i + 1)
    ensures rec1.inputs == rec.inputs && rec1.batchSize == rec.batchSize && rec1.step == rec.step + 1
  {
    RecordableAt(g, rec, run(StepAt(g, targets, i)), i);
    var next := RecordAdvancing(rec, st, run(StepAt(g, targets, i))).value;
    rec1, st1 := next.0, next.1;
  }

  /** Started on `g` and standing at column `i`, the loop finishes exactly
      when the rest of the input is feedable, and then `step` has reached
      the last column. */
  lemma {:induction false} DriveFinishes<T>(g: Grid, targets: Option<NdArray>, rec: Recorder<T>, st: Store<T>,
                                            run: Step -> map<string, seq<T>>, verbose: bool, i: nat)
    requires i <= g.width
    requires rec.inputs == Some(g) && rec.batchSize == |g.rows| && rec.step == i
    ensures Drive(g, targets, rec, st, run, verbose, i).0.None? <==> Feedable(g, targets, run, verbose, i)
    ensures Drive(g, targets, rec, st, run, verbose, i).0.None? ==> Drive(g, targets, rec, st, run, verbose, i).1.step == g.width
    decreases g.width - i
  {
    if i < g.width {
      FeedableStep(g, targets, run, verbose, i);
      if && TargetsSliceable(targets) && Covers(run(StepAt(g, targets, i)), |g.rows|)
         && !(verbose && g.width / 10 == 0) {
        var rec1, st1 := DriveContinues(g, targets, rec, st, run, verbose, i);
        DriveFinishes(g, targets, rec1, st1, run, verbose, i + 1);
      } else {
        DriveStops(g, targets, rec, st, run, verbose, i);
      }
    }
  }

  /** Started on `g` and standing at column `i`, the loop raises only
      IndexError or ZeroDivisionError. IndexError comes from the column the
      recorder stands at when it stops, whose targets cannot be sliced or
      whose bundle misses a row; ZeroDivisionError comes from the verbose
      progress test on an input of fewer than ten columns, right after
      column `i` has been recorded. */
  lemma {:induction false} DriveRaises<T>(g: Grid, targets: Option<NdArray>, rec: Recorder<T>, st: Store<T>,
                                          run: Step -> map<string, seq<T>>, verbose: bool, i: nat)
    requires i <= g.width
    requires rec.inputs == Some(g) && rec.batchSize == |g.rows| && rec.step == i
    ensures var (err, rec', _) := Drive(g, targets, rec, st, run, verbose, i);
            && (err.Some? ==> err == Some(IndexError) || err == Some(ZeroDivisionError))
            && (err == Some(IndexError) ==>
                  && i <= rec'.step < g.width
                  && (!TargetsSliceable(targets) || !Covers(run(StepAt(g, targets, rec'.step)), |g.rows|)))
            && (err == Some(ZeroDivisionError) ==> verbose && g.width < 10 && rec'.step == i + 1)
    decreases g.width - i
  {
    if i < g.width {
      if && TargetsSliceable(targets) && Covers(run(StepAt(g, targets, i)), |g.rows|)
         && !(verbose && g.width / 10 == 0) {
        var rec1, st1 := DriveContinues(g, targets, rec, st, run, verbose, i);
        DriveRaises(g, targets, rec1, st1, run, verbose, i + 1);
      } else {
        DriveStops(g, targets, rec, st, run, verbose, i);
      }
    }
  }

  /** The buffer invariant of a once-started recorder together with the
      flush bound `record` guarantees. */
  ghost predicate Bounded<T>(r: Recorder<T>) {
    AlignedAdvancing(r) && (r.flushEvery >= 1 ==> |Pending(r.pendingIds)| < r.flushEvery)
  }

  /** One whole iteration of the column loop (py/rnn/evaluator.py:119-125):
      slice, run and record column `i`, then the verbose progress test. It
      takes exactly one step of `Drive`: on an error that is where the loop
      ends, otherwise it continues from column `i + 1`. */
  method ColumnIteration<T>(g: Grid, targets: Option<NdArray>, i: nat, rec: Recorder<T>, st: Store<T>,
                            run: Step -> map<string, seq<T>>, verbose: bool, calls: seq<Call>)
    returns (err: Option<Error>, rec': Recorder<T>, st': Store<T>, calls': seq<Call>)
    requires i < g.width
    requires |calls| == 2 * i && ColumnCalls(calls, g, targets)
    ensures err.Some? ==> Drive(g, targets, rec, st, run, verbose, i) == (err, rec', st')
    ensures err.None? ==> Drive(g, targets, rec, st, run, verbose, i) == Drive(g, targets, rec', st', run, verbose, i + 1)
    ensures err.None? ==> !(verbose && g.width < 10)
    ensures !TargetsSliceable(targets) ==> err == Some(IndexError) && calls' == calls
    ensures err.None? || err == Some(ZeroDivisionError) ==> rec'.step == rec.step + 1
    ensures err.Some? && err != Some(ZeroDivisionError) ==> rec' == rec
    ensures ColumnCalls(calls', g, targets)
    ensures |calls'| == if TargetsSliceable(targets) then 2 * i + 2 else 2 * i
  {
    var pair;
    err, rec', st', pair := FeedColumn(g, targets, i, rec, st, run);
    DriveStep(g, targets, rec, st, run, verbose, i, err, rec', st');
    if err.None? && verbose && g.width / 10 == 0 {
      err := Some(ZeroDivisionError);
    }
    if pair != [] {
      ColumnCallsExtend(calls, g, targets, i);
    }
    calls' := calls + pair;
  }

  /** What `Drive` leaves of the recorder: the flush cadence, the buffer
      invariant, and, when no error stops it, one `step` per column. */
  lemma {:induction false} DriveKeeps<T>(g: Grid, targets: Option<NdArray>, rec: Recorder<T>, st: Store<T>,
                                         run: Step -> map<string, seq<T>>, verbose: bool, i: nat)
    requires i <= g.width
    ensures var (err, rec', st') := Drive(g, targets, rec, st, run, verbose, i);
            && rec'.flushEvery == rec.flushEvery
            && (err.None? ==> rec'.step == rec.step + (g.width - i))
            && (Bounded(rec) ==> Bounded(rec'))
    decreases g.width - i
  {
    if i < g.width && TargetsSliceable(targets) {
      var msg := run(StepAt(g, targets, i));
      var next := RecordAdvancing(rec, st, msg);
      if next.Ok? {
        if AlignedAdvancing(rec) {
          RecordAdvancingKeepsAligned(rec, st, msg);
        }
        DriveKeeps(g, targets, next.value.0, next.value.1, run, verbose, i + 1);
      }
    }
  }

  /** The pending records hold what the model returned for the columns they
      were read from: position `j` is sample `j mod B`'s share of the bundle
      for column `BufferedColumn(rec, j)`, stamped with that sample's token
      there, and carries sample `j mod B`'s id. */
  ghost predicate Carried<T>(rec: Recorder<T>, g: Grid, targets: Option<NdArray>, run: Step -> map<string, seq<T>>) {
    && AlignedAdvancing(rec) && rec.inputs == Some(g)
    && forall j :: 0 <= j < |Pending(rec.pendingIds)| ==>
         && TrailingAt(rec, j)
         && SampleRecord(Pending(rec.pendingRecords)[j], run(StepAt(g, targets, BufferedColumn(rec, j))),
                         j % rec.batchSize, g.rows[j % rec.batchSize][BufferedColumn(rec, j)])
  }

  /** Push `p` holds whole batches read from consecutive columns of `g` up to
      `last` (`PushTrailing`), and position `j` is sample `j mod B`'s share of
      the bundle the model returned for the column of its batch. */
  ghost predicate PushCarries<T>(p: Push<T>, ids: seq<nat>, g: Grid, targets: Option<NdArray>,
                                 run: Step -> map<string, seq<T>>, last: int) {
    && PushTrailing(p, ids, g, last)
    && (|ids| > 0 ==>
          forall j :: 0 <= j < |p.records| ==>
            && 0 <= PushColumn(p, |ids|, last, j) < g.width
            && SampleRecord(p.records[j], run(StepAt(g, targets, PushColumn(p, |ids|, last, j))),
                            j % |ids|, g.rows[j % |ids|][PushColumn(p, |ids|, last, j)]))
  }

  /** A position already buffered keeps its record and its column when the
      batch of column `i` is appended. */
  lemma CarriedKept<T>(g: Grid, targets: Option<NdArray>, rec: Recorder<T>,
                       run: Step -> map<string, seq<T>>, i: nat, j: nat)
    requires rec.step == i < g.width && rec.batchSize > 0
    requires Carried(rec, g, targets, run) && Recordable(rec, run(StepAt(g, targets, i)))
    requires j < |Pending(rec.pendingIds)|
    ensures var r1 := Appended(rec, Batch(rec, run(StepAt(g, targets, i))).value);
            && j < |Pending(r1.pendingRecords)| && 0 <= BufferedColumn(r1, j) < g.width
            && SampleRecord(Pending(r1.pendingRecords)[j], run(StepAt(g, targets, BufferedColumn(r1, j))),
                            j % rec.batchSize, g.rows[j % rec.batchSize][BufferedColumn(r1, j)])
  {
    var b := Batch(rec, run(StepAt(g, targets, i))).value;
    var r1 := Appended(rec, b);
    assert TrailingAt(rec, j);
    ModShift(|Pending(rec.pendingIds)|, 0, rec.batchSize);
    assert BufferedColumn(r1, j) == BufferedColumn(rec, j);
    assert Pending(r1.pendingRecords)[j] == Pending(rec.pendingRecords)[j];
  }

  /** A position of the batch appended at column `i` holds its sample's
      share of column `i`'s bundle. */
  lemma CarriedNew<T>(g: Grid, targets: Option<NdArray>, rec: Recorder<T>,
                      run: Step -> map<string, seq<T>>, i: nat, j: nat)
    requires rec.step == i < g.width && rec.batchSize > 0
    requires Carried(rec, g, targets, run) && Recordable(rec, run(StepAt(g, targets, i)))
    requires |Pending(rec.pendingIds)| <= j < |Pending(rec.pendingIds)| + rec.batchSize
    ensures var r1 := Appended(rec, Batch(rec, run(StepAt(g, targets, i))).value);
            && j < |Pending(r1.pendingRecords)| && BufferedColumn(r1, j) == i
            && SampleRecord(Pending(r1.pendingRecords)[j], run(StepAt(g, targets, i)),
                            j % rec.batchSize, g.rows[j % rec.batchSize][i])
  {
    var msg := run(StepAt(g, targets, i));
    var b := Batch(rec, msg).value;
    var r1 := Appended(rec, b);
    var n := |Pending(rec.pendingIds)|;
    ModShift(n, 0, rec.batchSize);
    ModShift(n, j - n, rec.batchSize);
    assert BufferedColumn(r1, j) == i;
    assert Pending(r1.pendingRecords)[j] == b[j - n];
    assert SampleRecord(b[j - n], msg, j - n, g.rows[j - n][i]);
  }

  /** Appending the batch recorded at column `i` to a buffer that carries its
      columns, and moving on to column `i + 1`, keeps it carrying them. */
  lemma AppendedCarried<T>(g: Grid, targets: Option<NdArray>, rec: Recorder<T>,
                           run: Step -> map<string, seq<T>>, i: nat)
    requires rec.step == i < g.width && rec.batchSize > 0
    requires Carried(rec, g, targets, run) && Recordable(rec, run(StepAt(g, targets, i)))
    ensures Carried(Appended(rec, Batch(rec, run(StepAt(g, targets, i))).value), g, targets, run)
  {
    var msg := run(StepAt(g, targets, i));
    var b := Batch(rec, msg).value;
    var r1 := Appended(rec, b);
    assert StampedBatch(rec, b) by {
      forall k | 0 <= k < |b|
        ensures WordKey in b[k] && b[k][WordKey] == WordId(g.rows[k][i])
      {
        assert SampleRecord(b[k], msg, k, g.rows[k][i]);
      }
    }
    AppendBatchTrailing(rec, b);
    forall j | 0 <= j < |Pending(r1.pendingIds)|
      ensures TrailingAt(r1, j)
      ensures SampleRecord(Pending(r1.pendingRecords)[j], run(StepAt(g, targets, BufferedColumn(r1, j))),
                           j % rec.batchSize, g.rows[j % rec.batchSize][BufferedColumn(r1, j)])
    {
      if j < |Pending(rec.pendingIds)| {
        CarriedKept(g, targets, rec, run, i, j);
      } else {
        CarriedNew(g, targets, rec, run, i, j);
      }
    }
  }

  /** A buffer that carries its columns is, once pushed, whole batches up to
      column `step - 1` carrying theirs. */
  lemma CarriedPush<T>(g: Grid, targets: Option<NdArray>, rec: Recorder<T>, run: Step -> map<string, seq<T>>)
    requires Carried(rec, g, targets, run)
    ensures PushCarries(Push(Pending(rec.pendingIds), Pending(rec.pendingRecords)), rec.evalDocId, g, targets, run, rec.step - 1)
  {
    var p := Push(Pending(rec.pendingIds), Pending(rec.pendingRecords));
    var ids := rec.evalDocId;
    TrailingPush(rec);
    if |ids| > 0 {
      forall j | 0 <= j < |p.records|
        ensures && 0 <= PushColumn(p, |ids|, rec.step - 1, j) < g.width
                && SampleRecord(p.records[j], run(StepAt(g, targets, PushColumn(p, |ids|, rec.step - 1, j))),
                                j % |ids|, g.rows[j % |ids|][PushColumn(p, |ids|, rec.step - 1, j)])
      {
        assert TrailingAt(rec, j);
        assert PushColumn(p, |ids|, rec.step - 1, j) == BufferedColumn(rec, j);
      }
    }
    assert PushCarries(p, ids, g, targets, run, rec.step - 1);
  }

  /** The corrected `record` of column `i`'s bundle keeps the buffer carrying
      its columns, and a batch it pushes carries the columns up to `i`. */
  lemma ColumnKeepsCarried<T>(g: Grid, targets: Option<NdArray>, rec: Recorder<T>, st: Store<T>,
                              run: Step -> map<string, seq<T>>, i: nat)
    requires rec.step == i < g.width && Carried(rec, g, targets, run)
    requires RecordAdvancing(rec, st, run(StepAt(g, targets, i))).Ok?
    ensures var (rec1, st1) := RecordAdvancing(rec, st, run(StepAt(g, targets, i))).value;
            && Carried(rec1, g, targets, run) && rec1.evalDocId == rec.evalDocId && st1.docs == st.docs
            && (|| st1.pushes == st.pushes
                || (&& |st1.pushes| == |st.pushes| + 1 && st1.pushes[..|st.pushes|] == st.pushes
                    && PushCarries(st1.pushes[|st.pushes|], rec.evalDocId, g, targets, run, i)))
  {
    var msg := run(StepAt(g, targets, i));
    var (rec1, st1) := RecordAdvancing(rec, st, msg).value;
    RecordAdvancingKeepsAligned(rec, st, msg);
    var b := Batch(rec, msg).value;
    var r1 := Appended(rec, b);
    var ids := Pending(rec.pendingIds) + rec.evalDocId;
    if rec.batchSize > 0 {
      AppendedCarried(g, targets, rec, run, i);
      if |ids| >= rec.flushEvery {
        CarriedPush(g, targets, r1, run);
        assert st1.pushes == st.pushes + [Push(Pending(r1.pendingIds), Pending(r1.pendingRecords))];
        assert Pending(rec1.pendingIds) == [];
      } else {
        assert rec1 == r1;
      }
    } else {
      assert Pending(rec1.pendingIds) == [];
      if |ids| >= rec.flushEvery {
        assert st1.pushes == st.pushes + [Push([], [])];
      }
    }
  }

  /** One column of `Drive` from a recorder at column `i` whose buffer
      carries its columns: either the loop stops there, leaving `rec1` and
      `st1`, or it goes on from them at column `i + 1`. Either way the buffer
      still carries its columns, no document is added, and at most one batch
      is pushed, carrying the columns up to `i`. */
  lemma DriveColumnCarries<T>(g: Grid, targets: Option<NdArray>, rec: Recorder<T>, st: Store<T>,
                              run: Step -> map<string, seq<T>>, verbose: bool, i: nat)
    returns (rec1: Recorder<T>, st1: Store<T>, stops: bool)
    requires rec.step == i < g.width && Carried(rec, g, targets, run)
    ensures Carried(rec1, g, targets, run) && rec1.evalDocId == rec.evalDocId && st1.docs == st.docs
    ensures || st1.pushes == st.pushes
            || (&& |st1.pushes| == |st.pushes| + 1 && st1.pushes[..|st.pushes|] == st.pushes
                && PushCarries(st1.pushes[|st.pushes|], rec.evalDocId, g, targets, run, i))
    ensures stops ==> Drive(g, targets, rec, st, run, verbose, i).1 == rec1
                      && Drive(g, targets, rec, st, run, verbose, i).2 == st1
    ensures !stops ==> rec1.step == i + 1
                       && Drive(g, targets, rec, st, run, verbose, i) == Drive(g, targets, rec1, st1, run, verbose, i + 1)
  {
    rec1, st1, stops := rec, st, true;
    if TargetsSliceable(targets) {
      var msg := run(StepAt(g, targets, i));
      var next := RecordAdvancing(rec, st, msg);
      if next.Ok? {
        ColumnKeepsCarried(g, targets, rec, st, run, i);
        rec1, st1 := next.value.0, next.value.1;
        stops := verbose && g.width / 10 == 0;
      }
    }
  }

  /** `p` carries whole batches of consecutive columns ending at some column. */
  ghost predicate PushCarriesSome<T>(p: Push<T>, ids: seq<nat>, g: Grid, targets: Option<NdArray>,
                                     run: Step -> map<string, seq<T>>) {
    exists last :: PushCarries(p, ids, g, targets, run, last)
  }

  /** Every push of the log from position `from` on is `PushCarries` for
      the samples whose ids are `ids`, for the column its last batch was read
      from. */
  ghost predicate PushesCarry<T>(pushes: seq<Push<T>>, from: nat, ids: seq<nat>, g: Grid,
                                 targets: Option<NdArray>, run: Step -> map<string, seq<T>>) {
    forall k :: from <= k < |pushes| ==> PushCarriesSome(pushes[k], ids, g, targets, run)
  }

  /** A log that grew by at most one carrying push and then by carrying
      pushes only carries every push since the start. */
  lemma PushesCarryExtend<T>(p0: seq<Push<T>>, p1: seq<Push<T>>, p2: seq<Push<T>>, ids: seq<nat>, g: Grid,
                             targets: Option<NdArray>, run: Step -> map<string, seq<T>>, i: nat)
    requires || p1 == p0
             || (|p1| == |p0| + 1 && p1[..|p0|] == p0 && PushCarries(p1[|p0|], ids, g, targets, run, i))
    requires |p1| <= |p2| && p2[..|p1|] == p1 && PushesCarry(p2, |p1|, ids, g, targets, run)
    ensures |p0| <= |p2| && p2[..|p0|] == p0 && PushesCarry(p2, |p0|, ids, g, targets, run)
  {
    assert p2[..|p0|] == p1[..|p0|];
    forall k | |p0| <= k < |p2|
      ensures PushCarriesSome(p2[k], ids, g, targets, run)
    {
      if k < |p1| {
        assert p1 != p0 && k == |p0|;
        assert p2[k] == p1[k];
        assert PushCarries(p2[k], ids, g, targets, run, i);
      }
    }
  }

  /** From a recorder at column `i` whose buffer carries its columns, the
      loop adds no document, keeps the buffer carrying its columns, and
      every batch it pushes carries whole batches of consecutive columns:
      position `j` pairs sample `j mod B`'s id with that sample's share of
      the bundle the model returned for the column of its batch. */
  lemma {:induction false} DrivePushes<T>(g: Grid, targets: Option<NdArray>, rec: Recorder<T>, st: Store<T>,
                                          run: Step -> map<string, seq<T>>, verbose: bool, i: nat)
    requires i <= g.width && rec.step == i && Carried(rec, g, targets, run)
    ensures var (_, rec', st') := Drive(g, targets, rec, st, run, verbose, i);
            && Carried(rec', g, targets, run) && st'.docs == st.docs
            && |st.pushes| <= |st'.pushes| && st'.pushes[..|st.pushes|] == st.pushes
            && PushesCarry(st'.pushes, |st.pushes|, rec.evalDocId, g, targets, run)
    decreases g.width - i
  {
    if i < g.width {
      var rec1, st1, stops := DriveColumnCarries(g, targets, rec, st, run, verbose, i);
      if !stops {
        DrivePushes(g, targets, rec1, st1, run, verbose, i + 1);
      }
      var st' := Drive(g, targets, rec, st, run, verbose, i).2;
      PushesCarryExtend(st.pushes, st1.pushes, st'.pushes, rec.evalDocId, g, targets, run, i);
    }
  }

  /** The loop of py/rnn/evaluator.py:118-125 from column `i` on: slice,
      run, record, and the verbose progress test, until the last column or
      the first error. */
  method RecordFrom<T>(g: Grid, targets: Option<NdArray>, i: nat, rec: Recorder<T>, st: Store<T>,
                       run: Step -> map<string, seq<T>>, verbose: bool, calls: seq<Call>)
    returns (err: Option<Error>, rec': Recorder<T>, st': Store<T>, calls': seq<Call>)
    requires i <= g.width
    requires |calls| == 2 * i && ColumnCalls(calls, g, targets)
    requires verbose && 0 < g.width < 10 ==> i == 0
    ensures ColumnCalls(calls', g, targets) && 2 * i <= |calls'| <= 2 * g.width
    ensures err.None? ==> |calls'| == 2 * g.width
    ensures verbose && 0 < g.width < 10 ==> err.Some? && |calls'| <= 2
    ensures verbose && 0 < g.width < 10 && TargetsSliceable(targets) ==> |calls'| == 2
    ensures !TargetsSliceable(targets) ==> calls' == calls
    ensures err.Some? && TargetsSliceable(targets) ==>
              |calls'| == |calls| + 2 * (rec'.step - rec.step) + (if err == Some(ZeroDivisionError) then 0 else 2)
    ensures (err, rec', st') == Drive(g, targets, rec, st, run, verbose, i)
    decreases g.width - i
  {
    if i == g.width {
      return None, rec, st, calls;
    }
    var rec1, st1;
    err, rec1, st1, calls' := ColumnIteration(g, targets, i, rec, st, run, verbose, calls);
    if err.Some? {
      return err, rec1, st1, calls';
    }
    err, rec', st', calls' := RecordFrom(g, targets, i + 1, rec1, st1, run, verbose, calls');
  }

  /** The loop of py/rnn/evaluator.py:118-125 over the columns of `g`. */
  method RecordColumns<T>(g: Grid, targets: Option<NdArray>, rec: Recorder<T>, st: Store<T>,
                          run: Step -> map<string, seq<T>>, verbose: bool)
    returns (err: Option<Error>, rec': Recorder<T>, st': Store<T>, calls: seq<Call>)
    ensures ColumnCalls(calls, g, targets) && |calls| / 2 <= g.width
    ensures err.None? ==> |calls| == 2 * g.width
    ensures verbose && 0 < g.width < 10 ==> err.Some? && |calls| <= 2
    ensures verbose && 0 < g.width < 10 && TargetsSliceable(targets) ==> |calls| == 2
    ensures !TargetsSliceable(targets) ==> calls == []
    ensures err.Some? && TargetsSliceable(targets) ==>
              |calls| == 2 * (rec'.step - rec.step) + (if err == Some(ZeroDivisionError) then 0 else 2)
    ensures err.None? ==> rec'.step == rec.step + g.width
    ensures (err, rec', st') == Drive(g, targets, rec, st, run, verbose, 0)
    ensures rec'.flushEvery == rec.flushEvery
    ensures Bounded(rec) ==> Bounded(rec')
  {
    err, rec', st', calls := RecordFrom(g, targets, 0, rec, st, run, verbose, []);
    DriveKeeps(g, targets, rec, st, run, verbose, 0);
  }

  /** The corrected `start` on a recorder with no ids and an empty buffer
      leaves it at column 0 with nothing buffered, its ids the positions of
      the documents it just added, and the pushes untouched. */
  lemma StartedCarries<T>(rec: Recorder<T>, st: Store<T>, g: Grid, targets: Option<NdArray>,
                          run: Step -> map<string, seq<T>>)
    requires Fresh(rec)
    ensures var started := StartAtFirstColumn(rec, st, TwoD(g), targets).value;
            && started.0.step == 0 && Carried(started.0, g, targets, run)
            && started.0.evalDocId == Positions(|st.docs|, |g.rows|)
            && started.1.docs == st.docs + RowDocs(rec.dataName, rec.modelName, g.rows)
            && started.1.pushes == st.pushes
  {
    StartAligns(rec, st, g, targets);
    var started := StartAtFirstColumn(rec, st, TwoD(g), targets).value;
    assert Pending(started.0.pendingIds) == [];
  }

  /** What the loop leaves when the recorder `rec` was fresh before the
      corrected `start`: the store gained exactly the rows' documents and
      kept its earlier pushes, every batch pushed since pairs position `j`
      with row `j mod B`'s document and holds that row's share of the bundle
      of its batch's column, the records still pending do the same, and
      fewer than `flush_every` ids are pending. */
  ghost predicate FreshRecorded<T>(g: Grid, targets: Option<NdArray>, rec: Recorder<T>, st: Store<T>,
                                   run: Step -> map<string, seq<T>>, rec': Recorder<T>, st': Store<T>) {
    && AlignedAdvancing(rec') && (rec.flushEvery >= 1 ==> |Pending(rec'.pendingIds)| < rec.flushEvery)
    && Carried(rec', g, targets, run)
    && st'.docs == st.docs + RowDocs(rec.dataName, rec.modelName, g.rows)
    && |st.pushes| <= |st'.pushes| && st'.pushes[..|st.pushes|] == st.pushes
    && PushesCarry(st'.pushes, |st.pushes|, Positions(|st.docs|, |g.rows|), g, targets, run)
  }

  /** From a fresh recorder, the corrected `start` followed by the loop
      leaves what `FreshRecorded` says. */
  lemma FreshGridRecorded<T>(g: Grid, targets: Option<NdArray>, rec: Recorder<T>, st: Store<T>,
                             run: Step -> map<string, seq<T>>, verbose: bool)
    requires Fresh(rec)
    ensures var started := StartAtFirstColumn(rec, st, TwoD(g), targets).value;
            var (_, rec', st') := Drive(g, targets, started.0, started.1, run, verbose, 0);
            FreshRecorded(g, targets, rec, st, run, rec', st')
  {
    var started := StartAtFirstColumn(rec, st, TwoD(g), targets).value;
    StartedCarries(rec, st, g, targets, run);
    assert Bounded(started.0);
    DriveKeeps(g, targets, started.0, started.1, run, verbose, 0);
    DrivePushes(g, targets, started.0, started.1, run, verbose, 0);
  }

  /** What `evaluate_and_record` does with an input that converted to a 2-D
      array `g`: start the recorder once (with the corrected `start`), reset
      the model state, then run the column loop, whose outcome is `Drive`
      from column 0. The loop finishes exactly when `g` is feedable, `step`
      then equalling the number of columns; otherwise it raises IndexError at
      the column `step` stands at, or ZeroDivisionError after the first
      record when `verbose` and `0 < length < 10`, and the calls are the
      run/record pairs of the columns reached. From a fresh recorder,
      `FreshRecorded` holds. */
  ghost predicate RecordedGrid<T>(g: Grid, targets: Option<NdArray>, rec: Recorder<T>, st: Store<T>,
                                  run: Step -> map<string, seq<T>>, verbose: bool,
                                  err: Option<Error>, rec': Recorder<T>, st': Store<T>, calls: seq<Call>) {
    var started := StartAtFirstColumn(rec, st, TwoD(g), targets).value;
    && |calls| >= 2 && calls[0] == StartRecorder && calls[1] == ResetState
    && ColumnCalls(calls[2..], g, targets)
    && |calls[2..]| / 2 <= g.width
    && (err.None? ==> |calls| == 2 + 2 * g.width)
    && (err, rec', st') == Drive(g, targets, started.0, started.1, run, verbose, 0)
    && (err.None? <==> Feedable(g, targets, run, verbose, 0))
    && (err.None? ==> rec'.step == g.width)
    && (!TargetsSliceable(targets) ==> calls == [StartRecorder, ResetState])
    && (err.Some? && TargetsSliceable(targets) ==>
          |calls| == 2 + 2 * rec'.step + (if err == Some(ZeroDivisionError) then 0 else 2))
    && (err.Some? ==> err == Some(IndexError) || err == Some(ZeroDivisionError))
    && (err == Some(IndexError) ==>
          && rec'.step < g.width
          && (!TargetsSliceable(targets) || !Covers(run(StepAt(g, targets, rec'.step)), |g.rows|)))
    && (err == Some(ZeroDivisionError) ==> verbose && g.width < 10 && rec'.step == 1)
    && (verbose && 0 < g.width < 10 ==> err.Some? && |calls| <= 4)
    && (verbose && 0 < g.width < 10 && TargetsSliceable(targets)
          && RecordAdvancing(started.0, started.1, run(StepAt(g, targets, 0))).Ok? ==>
          err == Some(ZeroDivisionError) && |calls| == 4)
    && (Fresh(rec) ==> FreshRecorded(g, targets, rec, st, run, rec', st'))
  }

  /** The part of `evaluate_and_record` after conversion, for a 2-D input
      (py/rnn/evaluator.py:112-125). */
  method RecordGrid<T>(g: Grid, targets: Option<NdArray>, rec: Recorder<T>, st: Store<T>,
                       run: Step -> map<string, seq<T>>, verbose: bool)
    returns (err: Option<Error>, rec': Recorder<T>, st': Store<T>, calls: seq<Call>)
    ensures RecordedGrid(g, targets, rec, st, run, verbose, err, rec', st', calls)
  {
    var started := StartAtFirstColumn(rec, st, TwoD(g), targets).value;
    var rec0, st0 := started.0, started.1;
    assert rec0.step == 0 && rec0.inputs == Some(g) && rec0.batchSize == |g.rows|;
    if Fresh(rec) {
      FreshGridRecorded(g, targets, rec, st, run, verbose);
    }
    DriveFinishes(g, targets, rec0, st0, run, verbose, 0);
    DriveRaises(g, targets, rec0, st0, run, verbose, 0);
    var columnCalls;
    err, rec', st', columnCalls := RecordColumns(g, targets, rec0, st0, run, verbose);
    calls := [StartRecorder, ResetState] + columnCalls;
    assert calls[2..] == columnCalls && |calls| == 2 + |columnCalls|;
  }

  /** `evaluate_and_record` (py/rnn/evaluator.py:88-126). Converts `inputs`
      and then `targets` (TypeError with the source's message on failure,
      before any call); a converted array that is not 2-D fails `start`'s
      assertion; a 2-D one is recorded as `RecordedGrid` says. Returns the
      error raised (None when the loop completes), the recorder and store as
      they stand, and the calls made. */
  method EvaluateAndRecord<T>(inputs: Conversion, targets: Option<Conversion>, rec: Recorder<T>, st: Store<T>,
                              run: Step -> map<string, seq<T>>, verbose: bool)
    returns (err: Option<Error>, rec': Recorder<T>, st': Store<T>, calls: seq<Call>)
    ensures inputs.Fails? ==>
              err == Some(TypeError(ConversionMessage("inputs", inputs.typeName)))
              && calls == [] && rec' == rec && st' == st
    ensures inputs.Converts? && targets.Some? && targets.value.Fails? ==>
              err == Some(TypeError(ConversionMessage("targets", targets.value.typeName)))
              && calls == [] && rec' == rec && st' == st
    ensures Converted(inputs, targets) && inputs.converted.OtherRank? ==>
              err == Some(AssertionError) && calls == [StartRecorder] && rec' == rec && st' == st
    ensures Converted(inputs, targets) && inputs.converted.TwoD? ==>
              RecordedGrid(inputs.converted.grid, TargetArray(targets), rec, st, run, verbose, err, rec', st', calls)
  {
    rec', st', calls := rec, st, [];
    if inputs.Fails? {
      return Some(TypeError(ConversionMessage("inputs", inputs.typeName))), rec', st', calls;
    }
    var tArr: Option<NdArray> := None;
    if targets.Some? {
      if targets.value.Fails? {
        return Some(TypeError(ConversionMessage("targets", targets.value.typeName))), rec', st', calls;
      }
      tArr := Some(targets.value.converted);
    }
    if StartAtFirstColumn(rec, st, inputs.converted, tArr).Err? {
      return Some(AssertionError), rec', st', [StartRecorder];
    }
    err, rec', st', calls := RecordGrid(inputs.converted.grid, tArr, rec, st, run, verbose);
  }
}
