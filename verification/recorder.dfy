/** The `Recorder` of py/rnn/evaluator.py:129-170 as an immutable state
    machine. Each transition returns the next recorder together with the
    evaluation store after the persistence calls it made.

    The store stands in for `insert_evaluation` and `push_evaluation_records`:
    it logs the documents inserted and the batches pushed, and an inserted
    document's id is its position in the log. The model relies on nothing
    about ids beyond their pointing at their document. */
module Recording {

  import opened Wrappers
  import opened Arrays

  /** One evaluation document: dataset, model and a sample's full token list. */
  datatype Doc = Doc(dataName: string, modelName: string, tokens: seq<int>)

  /** A value in a per-sample record: row `i` of some signal, or the stamped token id. */
  datatype Field<T> = Sample(value: T) | WordId(id: int)

  /** One `push_evaluation_records(ids, records)` call. */
  datatype Push<T> = Push(evalIds: seq<nat>, records: seq<map<string, Field<T>>>)

  /** The evaluation store as seen through its two calls. */
  datatype Store<T> = Store(docs: seq<Doc>, pushes: seq<Push<T>>)

  /** The recorder's attributes. `pendingIds` and `pendingRecords` are the
      `eval_ids` and `records` entries of `self.buffer`, None while the key is
      absent from the dict. */
  datatype Recorder<T> = Recorder(
    dataName: string,
    modelName: string,
    evalDocId: seq<nat>,
    pendingIds: Option<seq<nat>>,
    pendingRecords: Option<seq<map<string, Field<T>>>>,
    batchSize: nat,
    inputs: Option<Grid>,
    flushEvery: int,
    step: nat)

  const WordKey := "word_id"

  /** No ids and an empty buffer, as after construction. */
  ghost predicate Fresh<T>(r: Recorder<T>) {
    r.evalDocId == [] && r.pendingIds.None? && r.pendingRecords.None?
  }

  /** `Recorder(data_name, model_name, flush_every)` (py/rnn/evaluator.py:131-139). */
  function NewRecorder<T>(dataName: string, modelName: string, flushEvery: int): (r: Recorder<T>)
    ensures r.dataName == dataName && r.modelName == modelName && r.flushEvery == flushEvery
    ensures Fresh(r)
    ensures r.batchSize == 1 && r.inputs.None? && r.step == 0
  {
    Recorder(dataName, modelName, [], None, None, 1, None, flushEvery, 0)
  }

  /** Everything but the two buffer entries agrees. */
  ghost predicate SameSession<T>(r: Recorder<T>, r': Recorder<T>) {
    && r'.dataName == r.dataName && r'.modelName == r.modelName
    && r'.evalDocId == r.evalDocId && r'.batchSize == r.batchSize
    && r'.inputs == r.inputs && r'.flushEvery == r.flushEvery && r'.step == r.step
  }

  // ---------------------------------------------------------------- start

  /** The documents of `rows`, one per row, in row order. */
  function RowDocs(dataName: string, modelName: string, rows: seq<seq<int>>): seq<Doc>
  {
    seq(|rows|, i requires 0 <= i < |rows| => Doc(dataName, modelName, rows[i]))
  }

  /** The ids `base, base + 1, ..., base + n - 1` that `n` consecutive inserts
      into a log of `base` documents receive. */
  function Positions(base: nat, n: nat): seq<nat>
  {
    seq(n, i requires 0 <= i < n => base + i)
  }

  /** The loop of `insert_evaluation` calls, one per remaining row, in row
      order; returns the store and the ids it handed out. */
  function InsertRows<T>(st: Store<T>, dataName: string, modelName: string, rows: seq<seq<int>>): (res: (Store<T>, seq<nat>))
    ensures res.0.pushes == st.pushes
    ensures res.0.docs == st.docs + RowDocs(dataName, modelName, rows)
    ensures res.1 == Positions(|st.docs|, |rows|)
    decreases |rows|
  {
    if |rows| == 0 then (st, [])
    else
      var id := |st.docs|;
      var d := Doc(dataName, modelName, rows[0]);
      var st1 := st.(docs := st.docs + [d]);
      var rest := InsertRows(st1, dataName, modelName, rows[1..]);
      assert RowDocs(dataName, modelName, rows) == [d] + RowDocs(dataName, modelName, rows[1..]);
      assert Positions(id, |rows|) == [id] + Positions(id + 1, |rows| - 1);
      (rest.0, [id] + rest.1)
  }

  /** `start(inputs, targets)` (py/rnn/evaluator.py:141-152). A non-2-D array
      fails the assertion; otherwise one document per row is inserted in row
      order and its id appended to `eval_doc_id`. Earlier ids, both buffer
      entries and `step` are left as they were. `targets` is not used. */
  function Start<T>(r: Recorder<T>, st: Store<T>, inputs: NdArray, targets: Option<NdArray>): (res: Result<(Recorder<T>, Store<T>)>)
    ensures res.Err? <==> inputs.OtherRank?
    ensures res.Err? ==> res.error == AssertionError
    ensures res.Ok? ==>
              var (r', st') := res.value;
              var rows := inputs.grid.rows;
              && r'.batchSize == |rows| && r'.inputs == Some(inputs.grid)
              && st'.pushes == st.pushes
              && st'.docs == st.docs + RowDocs(r.dataName, r.modelName, rows)
              && r'.evalDocId == r.evalDocId + Positions(|st.docs|, |rows|)
              && r'.pendingIds == r.pendingIds && r'.pendingRecords == r.pendingRecords
              && r'.step == r.step && r'.flushEvery == r.flushEvery
              && r'.dataName == r.dataName && r'.modelName == r.modelName
  {
    match inputs
    case OtherRank(_) => Err(AssertionError)
    case TwoD(g) =>
      var (st', ids) := InsertRows(st, r.dataName, r.modelName, g.rows);
      Ok((r.(batchSize := |g.rows|, inputs := Some(g), evalDocId := r.evalDocId + ids), st'))
  }

  /** After `start`, the id appended for row `i` names a new document holding
      row `i`'s tokens, the new ids grow with the row index (so they are
      distinct), and the earlier documents and ids are kept. */
  lemma StartNamesRows<T>(r: Recorder<T>, st: Store<T>, g: Grid, targets: Option<NdArray>)
    ensures Start(r, st, TwoD(g), targets).Ok?
    ensures var (r', st') := Start(r, st, TwoD(g), targets).value;
            && |r'.evalDocId| == |r.evalDocId| + |g.rows| && r'.evalDocId[..|r.evalDocId|] == r.evalDocId
            && |st'.docs| == |st.docs| + |g.rows| && st'.docs[..|st.docs|] == st.docs
            && (forall i :: 0 <= i < |g.rows| ==>
                  var id := r'.evalDocId[|r.evalDocId| + i];
                  |st.docs| <= id < |st'.docs| && st'.docs[id] == Doc(r.dataName, r.modelName, g.rows[i]))
            && (var added := r'.evalDocId[|r.evalDocId|..];
                forall i, j :: 0 <= i < j < |added| ==> added[i] < added[j])
  {
    var (r', st') := Start(r, st, TwoD(g), targets).value;
    var added := Positions(|st.docs|, |g.rows|);
    assert r'.evalDocId[..|r.evalDocId|] == r.evalDocId;
    assert r'.evalDocId[|r.evalDocId|..] == added;
    assert st'.docs[..|st.docs|] == st.docs;
    forall i | 0 <= i < |g.rows|
      ensures r'.evalDocId[|r.evalDocId| + i] == |st.docs| + i
      ensures st'.docs[|st.docs| + i] == Doc(r.dataName, r.modelName, g.rows[i])
    {
      assert r'.evalDocId[|r.evalDocId| + i] == added[i];
      assert st'.docs[|st.docs| + i] == RowDocs(r.dataName, r.modelName, g.rows)[i];
    }
  }

  // ---------------------------------------------------------------- record

  /** Every signal of a bundle has a row for each of `b` samples. */
  ghost predicate Covers<T>(msg: map<string, seq<T>>, b: nat) {
    forall name :: name in msg ==> b <= |msg[name]|
  }

  /** What `record` needs to split a bundle: every signal has a row per sample,
      and (for a nonempty batch) `inputs` is set and has column `step`. */
  ghost predicate Recordable<T>(r: Recorder<T>, msg: map<string, seq<T>>) {
    && Covers(msg, r.batchSize)
    && (r.batchSize > 0 ==>
          r.inputs.Some? && r.batchSize <= |r.inputs.value.rows| && r.step < r.inputs.value.width)
  }

  /** Record `m` is sample `i`'s share of bundle `msg`: row `i` of every
      signal, with `word_id` set to `token` (over a signal of that name). */
  ghost predicate SampleRecord<T>(m: map<string, Field<T>>, msg: map<string, seq<T>>, i: nat, token: int) {
    && m.Keys == msg.Keys + {WordKey}
    && WordKey in m && m[WordKey] == WordId(token)
    && forall name :: name in msg && name != WordKey ==> i < |msg[name]| && m[name] == Sample(msg[name][i])
  }

  /** The per-sample records of py/rnn/evaluator.py:161-163: sample `i` gets row
      `i` of every signal, then `word_id` is set to `inputs[i, step]`. Indexing
      a signal with too few rows, or `inputs` with too few rows or columns,
      raises IndexError; indexing `inputs` before `start` raises TypeError. */
  function Batch<T>(r: Recorder<T>, msg: map<string, seq<T>>): (b: Result<seq<map<string, Field<T>>>>)
    ensures b.Ok? <==> Recordable(r, msg)
    ensures b.Err? && Covers(msg, r.batchSize) && r.inputs.None? ==>
              b.error.TypeError?
    ensures b.Err? && !(r.inputs.None? && Covers(msg, r.batchSize)) ==>
              b.error == IndexError
    ensures b.Ok? ==> |b.value| == r.batchSize
    ensures b.Ok? ==> forall i :: 0 <= i < r.batchSize ==>
              SampleRecord(b.value[i], msg, i, r.inputs.value.rows[i][r.step])
  {
    if exists name :: name in msg && |msg[name]| < r.batchSize then Err(IndexError)
    else if r.batchSize == 0 then Ok([])
    else if r.inputs.None? then Err(TypeError("'NoneType' object is not subscriptable"))
    else if |r.inputs.value.rows| < r.batchSize || r.inputs.value.width <= r.step then Err(IndexError)
    else
      var g := r.inputs.value;
      Ok(seq(r.batchSize, i requires 0 <= i < r.batchSize =>
        (map name | name in msg :: Sample(msg[name][i]))[WordKey := WordId(g.rows[i][r.step])]))
  }

  /** `record(record_message)` (py/rnn/evaluator.py:154-167): append the batch
      and the whole `eval_doc_id` list to the buffer, then flush once at least
      `flush_every` ids are pending. `step` is never advanced. */
  function Record<T>(r: Recorder<T>, st: Store<T>, msg: map<string, seq<T>>): (res: Result<(Recorder<T>, Store<T>)>)
    ensures res.Err? <==> !Recordable(r, msg)
    ensures res.Err? ==> res == Err(Batch(r, msg).error)
    ensures res.Ok? ==>
              var (r', st') := res.value;
              var ids := Pending(r.pendingIds) + r.evalDocId;
              var recs := Pending(r.pendingRecords) + Batch(r, msg).value;
              && SameSession(r, r') && st'.docs == st.docs
              && (|ids| >= r.flushEvery ==>
                    r'.pendingIds.None? && r'.pendingRecords.None? && st'.pushes == st.pushes + [Push(ids, recs)])
              && (|ids| < r.flushEvery ==>
                    r'.pendingIds == Some(ids) && r'.pendingRecords == Some(recs) && st' == st)
    ensures res.Ok? && r.flushEvery >= 1 ==> |Pending(res.value.0.pendingIds)| < r.flushEvery
  {
    var b := Batch(r, msg);
    if b.Err? then Err(b.error)
    else
      var ids := Pending(r.pendingIds) + r.evalDocId;
      var r1 := r.(pendingRecords := Some(Pending(r.pendingRecords) + b.value), pendingIds := Some(ids));
      if |ids| >= r.flushEvery then Flush(r1, st) else Ok((r1, st))
  }

  /** `record` as its docstring and the `step` attribute evidently intend: the
      same transition, after which `step` moves on to the next column, so
      that each call stamps the token consumed at its own step. */
  function RecordAdvancing<T>(r: Recorder<T>, st: Store<T>, msg: map<string, seq<T>>): (res: Result<(Recorder<T>, Store<T>)>)
    ensures res.Err? <==> !Recordable(r, msg)
    ensures res.Err? ==> res == Err(Batch(r, msg).error)
    ensures res.Ok? ==>
              var (r', st') := res.value;
              && r'.step == r.step + 1 && st' == Record(r, st, msg).value.1
              && r'.pendingIds == Record(r, st, msg).value.0.pendingIds
              && r'.pendingRecords == Record(r, st, msg).value.0.pendingRecords
              && r'.evalDocId == r.evalDocId && r'.batchSize == r.batchSize && r'.inputs == r.inputs
              && r'.flushEvery == r.flushEvery
  {
    match Record(r, st, msg)
    case Err(e) => Err(e)
    case Ok((r', st')) => Ok((r'.(step := r.step + 1), st'))
  }

  /** `start` as the corrected `record` needs it: the same transition, after
      which recording begins again at column 0, so that a recorder reused for
      a second input stamps that input's columns from the first one on. */
  function StartAtFirstColumn<T>(r: Recorder<T>, st: Store<T>, inputs: NdArray, targets: Option<NdArray>): (res: Result<(Recorder<T>, Store<T>)>)
    ensures res.Err? <==> inputs.OtherRank?
    ensures res.Err? ==> res.error == AssertionError
    ensures res.Ok? ==>
              var (r', st') := res.value;
              && r'.step == 0 && st' == Start(r, st, inputs, targets).value.1
              && r' == Start(r, st, inputs, targets).value.0.(step := 0)
  {
    match Start(r, st, inputs, targets)
    case Err(e) => Err(e)
    case Ok((r', st')) => Ok((r'.(step := 0), st'))
  }

  // ---------------------------------------------------------------- flush

  /** `flush()` (py/rnn/evaluator.py:169-170): pop both buffer entries and push
      them as one batch. Popping an absent key raises KeyError; `eval_ids` is
      popped first. */
  function Flush<T>(r: Recorder<T>, st: Store<T>): (res: Result<(Recorder<T>, Store<T>)>)
    ensures res.Err? <==> r.pendingIds.None? || r.pendingRecords.None?
    ensures r.pendingIds.None? ==> res == Err(KeyError("eval_ids"))
    ensures r.pendingIds.Some? && r.pendingRecords.None? ==> res == Err(KeyError("records"))
    ensures res.Ok? ==>
              var (r', st') := res.value;
              && SameSession(r, r') && r'.pendingIds.None? && r'.pendingRecords.None?
              && st'.docs == st.docs
              && st'.pushes == st.pushes + [Push(r.pendingIds.value, r.pendingRecords.value)]
  {
    match r.pendingIds
    case None => Err(KeyError("eval_ids"))
    case Some(ids) =>
      match r.pendingRecords
      case None => Err(KeyError("records"))
      case Some(recs) =>
        Ok((r.(pendingIds := None, pendingRecords := None), st.(pushes := st.pushes + [Push(ids, recs)])))
  }
}
