/** Properties of the `Recorder` state machine across several calls: the
    pending id and record buffers stay parallel after a single `start`, the
    buffer never holds `flush_every` ids once `record` returns, and the
    behaviours of the code that are easy to miss (`start` never resets,
    `step` never advances, a second `flush` raises). Beside the
    invariant of the code as written sits the one the corrected `record`
    keeps: every pending record is stamped at the column of its own step. */
module RecordingProperties {

  import opened Wrappers
  import opened Arrays
  import opened Recording

  /** Position `j` of the pending buffers pairs the id of sample `j mod B`
      with a record stamped with that sample's token at column `step`. */
  ghost predicate PairedAt<T>(r: Recorder<T>, j: int) {
    && r.batchSize > 0 && r.inputs.Some?
    && 0 <= j < |Pending(r.pendingIds)| && j < |Pending(r.pendingRecords)|
    && |r.evalDocId| == r.batchSize <= |r.inputs.value.rows|
    && r.step < r.inputs.value.width
    && Pending(r.pendingIds)[j] == r.evalDocId[j % r.batchSize]
    && WordKey in Pending(r.pendingRecords)[j]
    && Pending(r.pendingRecords)[j][WordKey] == WordId(r.inputs.value.rows[j % r.batchSize][r.step])
  }

  /** The shape of the buffers of a recorder started once: one id per sample,
      both buffer keys present or both absent, equal lengths in whole batches. */
  ghost predicate Parallel<T>(r: Recorder<T>) {
    && r.inputs.Some?
    && r.batchSize == |r.inputs.value.rows| == |r.evalDocId|
    && r.pendingIds.Some? == r.pendingRecords.Some?
    && |Pending(r.pendingIds)| == |Pending(r.pendingRecords)|
    && (r.batchSize == 0 ==> Pending(r.pendingIds) == [])
    && (r.batchSize > 0 ==> |Pending(r.pendingIds)| % r.batchSize == 0)
  }

  /** The buffer invariant of a recorder started once under the code as
      written: every position paired as `PairedAt` says. */
  ghost predicate Aligned<T>(r: Recorder<T>) {
    Parallel(r) && forall j :: 0 <= j < |Pending(r.pendingIds)| ==> PairedAt(r, j)
  }

  /** Under the corrected transition the buffer holds the last `n / B` steps,
      the newest at column `step - 1`: the column position `j` was read from. */
  function BufferedColumn<T>(r: Recorder<T>, j: int): int
    requires r.batchSize > 0
  {
    r.step - |Pending(r.pendingIds)| / r.batchSize + j / r.batchSize
  }

  /** Position `j` pairs the id of sample `j mod B` with a record stamped with
      that sample's token at the column of its own step. */
  ghost predicate TrailingAt<T>(r: Recorder<T>, j: int) {
    && r.batchSize > 0 && r.inputs.Some?
    && 0 <= j < |Pending(r.pendingIds)| && j < |Pending(r.pendingRecords)|
    && |r.evalDocId| == r.batchSize <= |r.inputs.value.rows|
    && 0 <= BufferedColumn(r, j) < r.inputs.value.width
    && Pending(r.pendingIds)[j] == r.evalDocId[j % r.batchSize]
    && WordKey in Pending(r.pendingRecords)[j]
    && Pending(r.pendingRecords)[j][WordKey] == WordId(r.inputs.value.rows[j % r.batchSize][BufferedColumn(r, j)])
  }

  /** The buffer invariant under the corrected transition. */
  ghost predicate AlignedAdvancing<T>(r: Recorder<T>) {
    && Parallel(r)
    && (r.batchSize > 0 ==> |Pending(r.pendingIds)| / r.batchSize <= r.step)
    && forall j :: 0 <= j < |Pending(r.pendingIds)| ==> TrailingAt(r, j)
  }

  lemma MulBound(d: int, b: int)
    requires b > 0
    ensures d >= 1 ==> d * b >= b
    ensures d <= -1 ==> d * b <= -b
  {
    if d >= 1 { assert d * b == (d - 1) * b + b; }
    if d <= -1 { assert d * b == (d + 1) * b - b; }
  }

  /** Euclidean quotients and remainders are unique. */
  lemma ModUnique(x: int, b: int, q: int, r: int)
    requires b > 0 && 0 <= r < b && x == q * b + r
    ensures x % b == r && x / b == q
  {
    var q', r' := x / b, x % b;
    assert x == q' * b + r';
    assert (q - q') * b == r' - r;
    MulBound(q - q', b);
  }

  lemma ModShift(p: nat, i: nat, b: nat)
    requires b > 0 && p % b == 0 && i < b
    ensures (p + i) % b == i && (p + i) / b == p / b
    ensures (p + b) % b == 0 && (p + b) / b == p / b + 1
  {
    var k := p / b;
    assert p == k * b + p % b;
    ModUnique(p + i, b, k, i);
    ModUnique(p + b, b, k + 1, 0);
  }

  /** The first `start` on a recorder with no ids and an empty buffer
      establishes the invariant. */
  lemma StartAligns<T>(r: Recorder<T>, st: Store<T>, g: Grid, targets: Option<NdArray>)
    requires Fresh(r)
    ensures Start(r, st, TwoD(g), targets).Ok?
    ensures Aligned(Start(r, st, TwoD(g), targets).value.0)
    ensures AlignedAdvancing(Start(r, st, TwoD(g), targets).value.0)
    ensures AlignedAdvancing(StartAtFirstColumn(r, st, TwoD(g), targets).value.0)
  {
    var r' := Start(r, st, TwoD(g), targets).value.0;
    assert Pending(r'.pendingIds) == [];
  }

  /** One record per sample, record `i` stamped with sample `i`'s token at
      column `step`, as `record` builds them. */
  ghost predicate StampedBatch<T>(r: Recorder<T>, b: seq<map<string, Field<T>>>)
    requires r.inputs.Some? && r.batchSize <= |r.inputs.value.rows| && r.step < r.inputs.value.width
  {
    && |b| == r.batchSize
    && forall i :: 0 <= i < |b| ==> WordKey in b[i] && b[i][WordKey] == WordId(r.inputs.value.rows[i][r.step])
  }

  /** Appending one stamped batch and one copy of `eval_doc_id` keeps the
      buffers paired. */
  lemma {:induction false} AppendBatchAligned<T>(r: Recorder<T>, b: seq<map<string, Field<T>>>)
    requires Aligned(r) && r.batchSize > 0 && r.step < r.inputs.value.width
    requires StampedBatch(r, b)
    ensures Aligned(r.(pendingIds := Some(Pending(r.pendingIds) + r.evalDocId),
                       pendingRecords := Some(Pending(r.pendingRecords) + b)))
  {
    var ids := Pending(r.pendingIds) + r.evalDocId;
    var recs := Pending(r.pendingRecords) + b;
    var r' := r.(pendingIds := Some(ids), pendingRecords := Some(recs));
    var n := |Pending(r.pendingIds)|;
    var bs := r.batchSize;
    ModShift(n, 0, bs);
    forall j | 0 <= j < |ids|
      ensures PairedAt(r', j)
    {
      if j < n {
        assert PairedAt(r, j);
      } else {
        ModShift(n, j - n, bs);
        assert ids[j] == r.evalDocId[j - n];
        assert recs[j] == b[j - n];
      }
    }
  }

  /** `record` preserves the invariant: the appended batch lines up with the
      appended copy of `eval_doc_id`, and a flush empties both keys. */
  lemma RecordKeepsAligned<T>(r: Recorder<T>, st: Store<T>, msg: map<string, seq<T>>)
    requires Aligned(r)
    requires Record(r, st, msg).Ok?
    ensures Aligned(Record(r, st, msg).value.0)
  {
    var ids := Pending(r.pendingIds) + r.evalDocId;
    if |ids| < r.flushEvery && r.batchSize > 0 {
      AppendBatchAligned(r, Batch(r, msg).value);
    }
  }

  /** The state `record` leaves when it appends without flushing, under the
      corrected transition. */
  function Appended<T>(r: Recorder<T>, b: seq<map<string, Field<T>>>): Recorder<T> {
    r.(pendingIds := Some(Pending(r.pendingIds) + r.evalDocId),
       pendingRecords := Some(Pending(r.pendingRecords) + b),
       step := r.step + 1)
  }

  /** A position already buffered keeps its column: the buffer grew by one
      step and so did `step`. */
  lemma TrailingKept<T>(r: Recorder<T>, b: seq<map<string, Field<T>>>, j: int)
    requires AlignedAdvancing(r) && r.batchSize > 0 && r.step < r.inputs.value.width
    requires StampedBatch(r, b)
    requires 0 <= j < |Pending(r.pendingIds)|
    ensures TrailingAt(Appended(r, b), j)
  {
    var r' := Appended(r, b);
    assert TrailingAt(r, j);
    ModShift(|Pending(r.pendingIds)|, 0, r.batchSize);
    assert BufferedColumn(r', j) == BufferedColumn(r, j);
    assert Pending(r'.pendingIds)[j] == Pending(r.pendingIds)[j];
    assert Pending(r'.pendingRecords)[j] == Pending(r.pendingRecords)[j];
  }

  /** A position of the appended batch is stamped at the old `step`. */
  lemma TrailingNew<T>(r: Recorder<T>, b: seq<map<string, Field<T>>>, j: int)
    requires AlignedAdvancing(r) && r.batchSize > 0 && r.step < r.inputs.value.width
    requires StampedBatch(r, b)
    requires |Pending(r.pendingIds)| <= j < |Pending(r.pendingIds)| + r.batchSize
    ensures TrailingAt(Appended(r, b), j)
  {
    var r' := Appended(r, b);
    var n := |Pending(r.pendingIds)|;
    ModShift(n, 0, r.batchSize);
    ModShift(n, j - n, r.batchSize);
    assert BufferedColumn(r', j) == r.step;
    assert Pending(r'.pendingIds)[j] == r.evalDocId[j - n];
    assert Pending(r'.pendingRecords)[j] == b[j - n];
  }

  /** Appending one batch stamped at column `step` and advancing `step` keeps
      every position stamped at the column of its own step. */
  lemma AppendBatchTrailing<T>(r: Recorder<T>, b: seq<map<string, Field<T>>>)
    requires AlignedAdvancing(r) && r.batchSize > 0 && r.step < r.inputs.value.width
    requires StampedBatch(r, b)
    ensures AlignedAdvancing(Appended(r, b))
  {
    var r' := Appended(r, b);
    ModShift(|Pending(r.pendingIds)|, 0, r.batchSize);
    forall j | 0 <= j < |Pending(r'.pendingIds)|
      ensures TrailingAt(r', j)
    {
      if j < |Pending(r.pendingIds)| {
        TrailingKept(r, b, j);
      } else {
        TrailingNew(r, b, j);
      }
    }
  }

  /** The corrected `record` preserves its invariant. */
  lemma RecordAdvancingKeepsAligned<T>(r: Recorder<T>, st: Store<T>, msg: map<string, seq<T>>)
    requires AlignedAdvancing(r)
    requires RecordAdvancing(r, st, msg).Ok?
    ensures AlignedAdvancing(RecordAdvancing(r, st, msg).value.0)
  {
    var ids := Pending(r.pendingIds) + r.evalDocId;
    var r' := RecordAdvancing(r, st, msg).value.0;
    if |ids| >= r.flushEvery {
      assert r'.pendingIds.None? && r'.pendingRecords.None?;
    } else if r.batchSize > 0 {
      AppendBatchTrailing(r, Batch(r, msg).value);
      assert r' == Appended(r, Batch(r, msg).value);
    }
  }

  // ---------------------------------------------------------------- pushes

  /** Under the code as written, a `record` that reaches `flush_every` pushes
      the buffer it has just extended: one id per record, position `j`
      pairing sample `j mod B`'s id with a record stamped with that sample's
      token at column `step`. */
  lemma RecordPushPaired<T>(r: Recorder<T>, st: Store<T>, msg: map<string, seq<T>>)
    requires Aligned(r) && r.batchSize > 0
    requires Record(r, st, msg).Ok?
    ensures var st' := Record(r, st, msg).value.1;
            var n := |Pending(r.pendingIds)| + r.batchSize;
            n >= r.flushEvery ==>
              && |st'.pushes| == |st.pushes| + 1 && st'.pushes[..|st.pushes|] == st.pushes
              && var p := st'.pushes[|st.pushes|];
                 && |p.evalIds| == |p.records| == n
                 && forall j :: 0 <= j < n ==>
                      && p.evalIds[j] == r.evalDocId[j % r.batchSize]
                      && WordKey in p.records[j]
                      && p.records[j][WordKey] == WordId(r.inputs.value.rows[j % r.batchSize][r.step])
  {
    var b := Batch(r, msg).value;
    assert StampedBatch(r, b) by {
      forall i | 0 <= i < |b|
        ensures WordKey in b[i] && b[i][WordKey] == WordId(r.inputs.value.rows[i][r.step])
      {
        assert SampleRecord(b[i], msg, i, r.inputs.value.rows[i][r.step]);
      }
    }
    AppendBatchAligned(r, b);
    var r1 := r.(pendingIds := Some(Pending(r.pendingIds) + r.evalDocId),
                 pendingRecords := Some(Pending(r.pendingRecords) + b));
    var n := |Pending(r.pendingIds)| + r.batchSize;
    if n >= r.flushEvery {
      var st' := Record(r, st, msg).value.1;
      var p := Push(Pending(r1.pendingIds), Pending(r1.pendingRecords));
      assert st'.pushes == st.pushes + [p];
      assert st'.pushes[|st.pushes|] == p;
      forall j | 0 <= j < n
        ensures && p.evalIds[j] == r.evalDocId[j % r.batchSize]
                && WordKey in p.records[j]
                && p.records[j][WordKey] == WordId(r.inputs.value.rows[j % r.batchSize][r.step])
      {
        assert PairedAt(r1, j);
      }
    }
  }

  /** Where position `j` of a push under the corrected transition was read:
      the column of batch `j / b`, the last batch having been read from
      column `last`. */
  function PushColumn<T>(p: Push<T>, b: nat, last: int, j: int): int
    requires b > 0
  {
    last + 1 - |p.evalIds| / b + j / b
  }

  /** Push `p` holds whole batches for the samples whose ids are `ids`, read
      from consecutive columns of `g` up to `last`: position `j` pairs sample
      `j mod B`'s id with a record stamped with that sample's token at the
      column of its batch. */
  ghost predicate PushTrailing<T>(p: Push<T>, ids: seq<nat>, g: Grid, last: int) {
    && |ids| == |g.rows|
    && |p.evalIds| == |p.records|
    && (|ids| == 0 ==> p.evalIds == [])
    && (|ids| > 0 ==>
          && |p.evalIds| % |ids| == 0
          && forall j :: 0 <= j < |p.evalIds| ==>
               && 0 <= PushColumn(p, |ids|, last, j) < g.width
               && p.evalIds[j] == ids[j % |ids|]
               && WordKey in p.records[j]
               && p.records[j][WordKey] == WordId(g.rows[j % |ids|][PushColumn(p, |ids|, last, j)]))
  }

  /** A buffer that keeps the corrected invariant is, once pushed, whole
      batches up to column `step - 1`. */
  lemma TrailingPush<T>(r: Recorder<T>)
    requires AlignedAdvancing(r)
    ensures PushTrailing(Push(Pending(r.pendingIds), Pending(r.pendingRecords)), r.evalDocId, r.inputs.value, r.step - 1)
  {
    var p := Push(Pending(r.pendingIds), Pending(r.pendingRecords));
    var ids, g := r.evalDocId, r.inputs.value;
    if |ids| > 0 {
      forall j | 0 <= j < |p.evalIds|
        ensures && 0 <= PushColumn(p, |ids|, r.step - 1, j) < g.width
                && p.evalIds[j] == ids[j % |ids|]
                && WordKey in p.records[j]
                && p.records[j][WordKey] == WordId(g.rows[j % |ids|][PushColumn(p, |ids|, r.step - 1, j)])
      {
        assert TrailingAt(r, j);
        assert PushColumn(p, |ids|, r.step - 1, j) == BufferedColumn(r, j);
      }
    }
    assert PushTrailing(p, ids, g, r.step - 1);
  }

  /** Under the corrected transition, a `record` that reaches `flush_every`
      pushes whole batches read from consecutive columns, the last one at
      `step`: each position pairs its sample's id with a record stamped at
      the column of its own step. */
  lemma RecordAdvancingPushTrailing<T>(r: Recorder<T>, st: Store<T>, msg: map<string, seq<T>>)
    requires AlignedAdvancing(r)
    requires RecordAdvancing(r, st, msg).Ok?
    ensures var st' := RecordAdvancing(r, st, msg).value.1;
            var n := |Pending(r.pendingIds)| + r.batchSize;
            n >= r.flushEvery ==>
              && |st'.pushes| == |st.pushes| + 1 && st'.pushes[..|st.pushes|] == st.pushes
              && |st'.pushes[|st.pushes|].evalIds| == n
              && PushTrailing(st'.pushes[|st.pushes|], r.evalDocId, r.inputs.value, r.step)
  {
    var b := Batch(r, msg).value;
    var r1 := Appended(r, b);
    if r.batchSize > 0 {
      assert StampedBatch(r, b) by {
        forall i | 0 <= i < |b|
          ensures WordKey in b[i] && b[i][WordKey] == WordId(r.inputs.value.rows[i][r.step])
        {
          assert SampleRecord(b[i], msg, i, r.inputs.value.rows[i][r.step]);
        }
      }
      AppendBatchTrailing(r, b);
      TrailingPush(r1);
    } else {
      assert Pending(r1.pendingIds) == [] && Pending(r1.pendingRecords) == [];
    }
  }

  /** `flush` preserves the invariant. */
  lemma FlushKeepsAligned<T>(r: Recorder<T>, st: Store<T>)
    requires Aligned(r)
    requires Flush(r, st).Ok?
    ensures Aligned(Flush(r, st).value.0)
  {
  }

  /** Two flushes in a row: the second finds no `eval_ids` key and raises. */
  lemma SecondFlushFails<T>(r: Recorder<T>, st: Store<T>)
    requires Flush(r, st).Ok?
    ensures Flush(Flush(r, st).value.0, Flush(r, st).value.1) == Err(KeyError("eval_ids"))
  {
  }

  /** A flush before anything was recorded raises. */
  lemma FlushOnFreshFails<T>(dataName: string, modelName: string, flushEvery: int, st: Store<T>, g: Grid)
    ensures Flush(NewRecorder<T>(dataName, modelName, flushEvery), st) == Err(KeyError("eval_ids"))
    ensures Flush(Start(NewRecorder<T>(dataName, modelName, flushEvery), st, TwoD(g), None).value.0, st)
              == Err(KeyError("eval_ids"))
  {
  }

  /** How far the id buffer runs ahead of the record buffer: each `record`
      adds `|eval_doc_id| - batch_size` to the gap, whether the ids stay
      pending or are pushed. */
  lemma RecordSkew<T>(r: Recorder<T>, st: Store<T>, msg: map<string, seq<T>>)
    requires Record(r, st, msg).Ok?
    ensures var (r', st') := Record(r, st, msg).value;
            var gap := |Pending(r.pendingIds)| - |Pending(r.pendingRecords)| + |r.evalDocId| - r.batchSize;
            && (r'.pendingIds.Some? ==> |Pending(r'.pendingIds)| - |Pending(r'.pendingRecords)| == gap)
            && (r'.pendingIds.None? ==>
                  |st'.pushes| == |st.pushes| + 1 && |st'.pushes[|st.pushes|].evalIds| - |st'.pushes[|st.pushes|].records| == gap)
  {
  }

  /** `start` does not clear `eval_doc_id`: a second `start` on a started
      recorder leaves more ids than samples, so every later `record` pushes or
      keeps more ids than records. */
  lemma SecondStartSkews<T>(r: Recorder<T>, st: Store<T>, g: Grid, msg: map<string, seq<T>>)
    requires Aligned(r) && r.batchSize > 0
    requires var r2 := Start(r, st, TwoD(g), None).value; Record(r2.0, r2.1, msg).Ok?
    ensures var r2 := Start(r, st, TwoD(g), None).value;
            var (r3, st3) := Record(r2.0, r2.1, msg).value;
            && |r2.0.evalDocId| == r2.0.batchSize + r.batchSize
            && (r3.pendingIds.Some? ==> |Pending(r3.pendingIds)| != |Pending(r3.pendingRecords)|)
            && (r3.pendingIds.None? ==>
                  |st3.pushes[|r2.1.pushes|].evalIds| != |st3.pushes[|r2.1.pushes|].records|)
  {
    var r2 := Start(r, st, TwoD(g), None).value;
    RecordSkew(r2.0, r2.1, msg);
  }

  /** With `flush_every = 3` and two samples, the first `record` keeps its
      two ids pending and the second pushes all four (4 >= 3). */
  lemma FlushCadenceExample<T>(st: Store<T>, v0: T, v1: T, w0: int, w1: int)
    ensures var r0 := NewRecorder<T>("data", "model", 3);
            var g: Grid := Matrix([[w0], [w1]], 1);
            var msg := map["state" := [v0, v1]];
            var (r1, st1) := Start(r0, st, TwoD(g), None).value;
            var (r2, st2) := Record(r1, st1, msg).value;
            var (r3, st3) := Record(r2, st2, msg).value;
            && st2 == st1 && |Pending(r2.pendingIds)| == 2
            && |st3.pushes| == |st1.pushes| + 1 && r3.pendingIds.None?
            && |st3.pushes[|st1.pushes|].evalIds| == 4 && |st3.pushes[|st1.pushes|].records| == 4
  {
    var r0 := NewRecorder<T>("data", "model", 3);
    var g: Grid := Matrix([[w0], [w1]], 1);
    var msg := map["state" := [v0, v1]];
    var (r1, st1) := Start(r0, st, TwoD(g), None).value;
    assert Recordable(r1, msg);
    var (r2, st2) := Record(r1, st1, msg).value;
    assert Recordable(r2, msg);
  }

  /** As written, consecutive `record` calls stamp the same column: the
      second call's batch carries `inputs[i, step]` with the unchanged `step`. */
  lemma RecordRereadsColumn<T>(r: Recorder<T>, st: Store<T>, m1: map<string, seq<T>>, m2: map<string, seq<T>>)
    requires Record(r, st, m1).Ok?
    requires Recordable(Record(r, st, m1).value.0, m2)
    ensures var r1 := Record(r, st, m1).value.0;
            forall i :: 0 <= i < r.batchSize ==>
              Batch(r1, m2).value[i][WordKey] == WordId(r.inputs.value.rows[i][r.step])
  {
  }

  /** With the corrected transition the second call stamps the next column. */
  lemma AdvancingReadsNextColumn<T>(r: Recorder<T>, st: Store<T>, m1: map<string, seq<T>>, m2: map<string, seq<T>>)
    requires RecordAdvancing(r, st, m1).Ok?
    requires Recordable(RecordAdvancing(r, st, m1).value.0, m2)
    ensures var r1 := RecordAdvancing(r, st, m1).value.0;
            forall i :: 0 <= i < r.batchSize ==>
              Batch(r1, m2).value[i][WordKey] == WordId(r.inputs.value.rows[i][r.step + 1])
  {
  }

  /** The record of a sample when the bundle is empty: only the stamp. */
  function Stamped<T>(w: int): map<string, Field<T>> {
    map[WordKey := WordId(w)]
  }

  lemma SingleStamp<T>(r: Recorder<T>, w: int)
    requires r.batchSize == 1 && Recordable(r, map[])
    requires r.inputs.value.rows[0][r.step] == w
    ensures Batch(r, map[]) == Ok([Stamped<T>(w)])
  {
    var b := Batch(r, map[]).value;
    assert b[0].Keys == {WordKey};
    assert b[0] == Stamped<T>(w);
    assert b == [b[0]];
  }

  /** One sample with tokens `[7, 8]`, two steps recorded: the code stamps
      token 7 on both records, where the second step consumed token 8. */
  lemma StuckColumnExample<T>(st: Store<T>)
    ensures var r0 := NewRecorder<T>("data", "model", 100);
            var g: Grid := Matrix([[7, 8]], 2);
            var (r1, st1) := Start(r0, st, TwoD(g), None).value;
            var (r2, st2) := Record(r1, st1, map[]).value;
            var (r3, st3) := Record(r2, st2, map[]).value;
            r3.pendingRecords == Some([Stamped<T>(7), Stamped<T>(7)])
  {
    var r0 := NewRecorder<T>("data", "model", 100);
    var g: Grid := Matrix([[7, 8]], 2);
    var (r1, st1) := Start(r0, st, TwoD(g), None).value;
    var (r2, st2) := Record(r1, st1, map[]).value;
    TwoStampsPending(r1, st1, false, 7, 7);
  }

  /** The same two steps with the corrected transition stamp 7, then 8. */
  lemma AdvancingColumnExample<T>(st: Store<T>)
    ensures var r0 := NewRecorder<T>("data", "model", 100);
            var g: Grid := Matrix([[7, 8]], 2);
            var (r1, st1) := Start(r0, st, TwoD(g), None).value;
            var (r2, st2) := RecordAdvancing(r1, st1, map[]).value;
            var (r3, st3) := RecordAdvancing(r2, st2, map[]).value;
            r3.pendingRecords == Some([Stamped<T>(7), Stamped<T>(8)])
  {
    var r0 := NewRecorder<T>("data", "model", 100);
    var g: Grid := Matrix([[7, 8]], 2);
    var (r1, st1) := Start(r0, st, TwoD(g), None).value;
    TwoStampsPending(r1, st1, true, 7, 8);
  }

  /** Two empty bundles recorded on a one-sample recorder with nothing
      pending and room for both ids. */
  lemma TwoStampsPending<T>(r1: Recorder<T>, st1: Store<T>, advancing: bool, w1: int, w2: int)
    requires r1.batchSize == 1 && |r1.evalDocId| == 1 && r1.flushEvery > 2
    requires r1.pendingIds.None? && r1.pendingRecords.None?
    requires r1.inputs.Some? && |r1.inputs.value.rows| == 1
    requires r1.step + 1 < r1.inputs.value.width
    requires r1.inputs.value.rows[0][r1.step] == w1
    requires r1.inputs.value.rows[0][if advancing then r1.step + 1 else r1.step] == w2
    ensures var next := if advancing then RecordAdvancing(r1, st1, map[]) else Record(r1, st1, map[]);
            next.Ok? &&
            var (r2, st2) := next.value;
            var last := if advancing then RecordAdvancing(r2, st2, map[]) else Record(r2, st2, map[]);
            last.Ok? && last.value.0.pendingRecords == Some([Stamped<T>(w1), Stamped<T>(w2)])
  {
    SingleStamp(r1, w1);
    var x := Batch(r1, map[]).value;
    assert Pending(r1.pendingRecords) + x == x;
    var next := if advancing then RecordAdvancing(r1, st1, map[]) else Record(r1, st1, map[]);
    var (r2, st2) := next.value;
    assert r2.pendingRecords == Some([Stamped<T>(w1)]);
    assert |Pending(r2.pendingIds)| == 1;
    SingleStamp(r2, w2);
    var y := Batch(r2, map[]).value;
    assert Pending(r2.pendingRecords) + y == [Stamped<T>(w1), Stamped<T>(w2)];
  }
}
