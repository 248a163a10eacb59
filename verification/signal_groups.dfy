/** The summary ops an `Evaluator` builds at construction
    (py/rnn/evaluator.py:25-56): layer states grouped by kind and stacked on a
    layer axis, plus the raw input, embedding and output tensors. */
module SignalGroups {

  import opened Wrappers
  import opened Tensors

  const StateKey := "state"
  const CellKey := "state_c"
  const HiddenKey := "state_h"

  /** The constructor's logging switches (`log_state`, `log_input`,
      `log_output`, `log_gradients`). */
  datatype Flags = Flags(logState: bool, logInput: bool, logOutput: bool, logGradients: bool)

  /** The tensors one layer contributes to the group `key`, as a list. */
  function Contribution(key: string, s: LayerState): seq<Tensor> {
    match s
    case Plain(t) => if key == StateKey then [t] else []
    case Gated(c, h) => if key == CellKey then [c] else if key == HiddenKey then [h] else []
  }

  /** Reference definition of a group: every layer's contribution, in layer order. */
  function Group(key: string, states: seq<LayerState>): seq<Tensor> {
    if |states| == 0 then [] else Contribution(key, states[0]) + Group(key, states[1..])
  }

  /** `d[key]` on a `defaultdict(list)`. */
  function Lookup(d: map<string, seq<Tensor>>, key: string): seq<Tensor> {
    if key in d then d[key] else []
  }

  /** `d[key].append(t)` on a `defaultdict(list)`: the key appears on first use. */
  function AppendTo(d: map<string, seq<Tensor>>, key: string, t: Tensor): map<string, seq<Tensor>> {
    d[key := Lookup(d, key) + [t]]
  }

  /** One iteration of the loop over `self.model.state`
      (py/rnn/evaluator.py:36-41): the `isinstance` test becomes a match. */
  function AddLayer(d: map<string, seq<Tensor>>, s: LayerState): map<string, seq<Tensor>> {
    match s
    case Gated(c, h) => AppendTo(AppendTo(d, CellKey, c), HiddenKey, h)
    case Plain(t) => AppendTo(d, StateKey, t)
  }

  /** The whole loop over `self.model.state`, one layer at a time. */
  function Bucket(d: map<string, seq<Tensor>>, states: seq<LayerState>): map<string, seq<Tensor>>
    decreases |states|
  {
    if |states| == 0 then d else Bucket(AddLayer(d, states[0]), states[1..])
  }

  lemma AddLayerContributes(d: map<string, seq<Tensor>>, s: LayerState, key: string)
    ensures Lookup(AddLayer(d, s), key) == Lookup(d, key) + Contribution(key, s)
    ensures key in AddLayer(d, s) <==> key in d || Contribution(key, s) != []
  {
  }

  /** The grouping loop appends to a bucket exactly that bucket's group, in
      layer order, and creates the bucket only when some layer contributes. */
  lemma {:induction false} BucketIsGroup(d: map<string, seq<Tensor>>, states: seq<LayerState>, key: string)
    ensures Lookup(Bucket(d, states), key) == Lookup(d, key) + Group(key, states)
    ensures key in Bucket(d, states) <==> key in d || Group(key, states) != []
    decreases |states|
  {
    if |states| != 0 {
      var d1 := AddLayer(d, states[0]);
      var c := Contribution(key, states[0]);
      var g := Group(key, states[1..]);
      assert Bucket(d, states) == Bucket(d1, states[1..]);
      assert Group(key, states) == c + g;
      AddLayerContributes(d, states[0], key);
      BucketIsGroup(d1, states[1..], key);
      assert Lookup(d1, key) + g == Lookup(d, key) + (c + g);
    }
  }

  /** Grouping from no buckets yields exactly the nonempty groups. */
  lemma GroupedStates(states: seq<LayerState>)
    ensures forall key :: key in Bucket(map[], states) <==> Group(key, states) != []
    ensures forall key :: key in Bucket(map[], states) ==> Bucket(map[], states)[key] == Group(key, states)
  {
    forall key
      ensures key in Bucket(map[], states) <==> Group(key, states) != []
      ensures key in Bucket(map[], states) ==> Bucket(map[], states)[key] == Group(key, states)
    {
      BucketIsGroup(map[], states, key);
    }
  }

  /** Only the three state keys have groups; a plain layer adds one tensor to
      `state`, a gated layer one to each of `state_c` and `state_h`. */
  lemma {:induction false} GroupSizes(states: seq<LayerState>)
    ensures |Group(StateKey, states)| + |Group(CellKey, states)| == |states|
    ensures |Group(CellKey, states)| == |Group(HiddenKey, states)|
    ensures forall key :: key != StateKey && key != CellKey && key != HiddenKey ==> Group(key, states) == []
  {
    if |states| != 0 {
      GroupSizes(states[1..]);
    }
  }

  /** The state groups when `log_state`, each stacked on axis 1
      (py/rnn/evaluator.py:34-45); none otherwise. */
  function StateOps(states: seq<LayerState>, logState: bool): (ops: map<string, Signal>)
    ensures forall key :: key in ops <==> logState && Group(key, states) != []
    ensures forall key :: key in ops ==> ops[key] == Stacked(Group(key, states))
    ensures ops.Keys <= {StateKey, CellKey, HiddenKey}
  {
    GroupedStates(states);
    GroupSizes(states);
    var groups := if logState then Bucket(map[], states) else map[];
    map key | key in groups :: Stacked(groups[key])
  }

  /** The summary ops built before the gradient branch: the state groups
      stacked on axis 1 when `log_state`, then `input`, `input_embedding` and
      `output` (py/rnn/evaluator.py:33-51). */
  function LoggedOps(m: ModelHandle, f: Flags, mapToEmbedding: bool): (ops: map<string, Signal>)
    ensures forall key :: key in {StateKey, CellKey, HiddenKey} ==>
              (key in ops <==> f.logState && Group(key, m.state) != [])
    ensures forall key :: key in {StateKey, CellKey, HiddenKey} && key in ops ==>
              ops[key] == Stacked(Group(key, m.state))
    ensures "input" in ops <==> f.logInput
    ensures "input" in ops ==> ops["input"] == Raw(m.inputHolders)
    ensures "input_embedding" in ops <==> f.logInput && mapToEmbedding
    ensures "input_embedding" in ops ==> ops["input_embedding"] == Raw(m.inputs)
    ensures "output" in ops <==> f.logOutput
    ensures "output" in ops ==> ops["output"] == Raw(m.outputs)
    ensures ops.Keys <= {StateKey, CellKey, HiddenKey, "input", "input_embedding", "output"}
  {
    var stacked := StateOps(m.state, f.logState);
    assert "input" !in stacked && "input_embedding" !in stacked && "output" !in stacked;
    var withInput := if f.logInput then stacked["input" := Raw(m.inputHolders)] else stacked;
    var withEmbedding := if f.logInput && mapToEmbedding then withInput["input_embedding" := Raw(m.inputs)] else withInput;
    if f.logOutput then withEmbedding["output" := Raw(m.outputs)] else withEmbedding
  }

  /** `Evaluator.__init__` as written: with `log_gradients` it stores into
      `self.summary_ops` before that attribute exists, so construction fails. */
  function SummaryOpsAsWritten(m: ModelHandle, f: Flags, mapToEmbedding: bool): (r: Result<map<string, Signal>>)
    ensures r.Err? <==> f.logGradients
    ensures r.Err? ==> r.error == AttributeError("summary_ops")
    ensures r.Ok? ==> "inputs_gradients" !in r.value
  {
    var ops := LoggedOps(m, f, mapToEmbedding);
    if f.logGradients then Err(AttributeError("summary_ops")) else Ok(ops)
  }

  /** Construction as evidently intended: the gradient of the loss with
      respect to the embedded inputs joins the other summary ops. */
  function SummaryOps(m: ModelHandle, f: Flags, mapToEmbedding: bool): (ops: map<string, Signal>)
    ensures "inputs_gradients" in ops <==> f.logGradients
    ensures "inputs_gradients" in ops ==> ops["inputs_gradients"] == Gradient(m.loss, m.inputs)
    ensures forall key :: key != "inputs_gradients" ==>
              (key in ops <==> key in LoggedOps(m, f, mapToEmbedding))
    ensures forall key :: key != "inputs_gradients" && key in ops ==>
              ops[key] == LoggedOps(m, f, mapToEmbedding)[key]
  {
    var ops := LoggedOps(m, f, mapToEmbedding);
    if f.logGradients then ops["inputs_gradients" := Gradient(m.loss, m.inputs)] else ops
  }

  /** The two constructions agree whenever the as-written one succeeds. */
  lemma SummaryOpsAgree(m: ModelHandle, f: Flags, mapToEmbedding: bool)
    ensures SummaryOpsAsWritten(m, f, mapToEmbedding).Ok? ==>
              SummaryOpsAsWritten(m, f, mapToEmbedding).value == SummaryOps(m, f, mapToEmbedding)
  {
  }

  /** With every layer tensor of shape `[B, U]`, each state group stacks to
      `[B, k, U]` where `k` is the number of layers it collects. */
  lemma {:induction false} GroupShapes(m: ModelHandle, f: Flags, mapToEmbedding: bool, batch: nat, units: nat)
    requires forall i :: 0 <= i < |m.state| ==> LayerShapes(m.state[i], [batch, units])
    ensures forall key :: key in {StateKey, CellKey, HiddenKey} && key in LoggedOps(m, f, mapToEmbedding) ==>
              StackShape(LoggedOps(m, f, mapToEmbedding)[key].parts) == Some([batch, |Group(key, m.state)|, units])
  {
    forall key | key in {StateKey, CellKey, HiddenKey} && key in LoggedOps(m, f, mapToEmbedding)
      ensures StackShape(LoggedOps(m, f, mapToEmbedding)[key].parts) == Some([batch, |Group(key, m.state)|, units])
    {
      GroupOfShape(key, m.state, [batch, units]);
      StackOfBatches(Group(key, m.state), batch, units);
    }
  }

  ghost predicate LayerShapes(s: LayerState, shape: seq<nat>) {
    match s
    case Plain(t) => t.shape == shape
    case Gated(c, h) => c.shape == shape && h.shape == shape
  }

  lemma {:induction false} GroupOfShape(key: string, states: seq<LayerState>, shape: seq<nat>)
    requires forall i :: 0 <= i < |states| ==> LayerShapes(states[i], shape)
    ensures SameShape(Group(key, states), shape)
  {
    if |states| != 0 {
      GroupOfShape(key, states[1..], shape);
      assert LayerShapes(states[0], shape);
    }
  }

  lemma GroupCons(key: string, s: LayerState, rest: seq<LayerState>)
    ensures Group(key, [s] + rest) == Contribution(key, s) + Group(key, rest)
  {
    assert ([s] + rest)[1..] == rest;
  }

  lemma UnfoldThree(key: string, s0: LayerState, s1: LayerState, s2: LayerState)
    ensures Group(key, [s0, s1, s2]) == Contribution(key, s0) + Contribution(key, s1) + Contribution(key, s2)
  {
    GroupCons(key, s2, []);
    GroupCons(key, s1, [s2]);
    GroupCons(key, s0, [s1, s2]);
    assert [s0] + [s1, s2] == [s0, s1, s2] && [s1] + [s2] == [s1, s2];
  }

  /** Three layers, plain / gated / plain: `state` stacks layers 0 and 2 into
      `[B, 2, U]`, `state_c` and `state_h` hold layer 1 alone as `[B, 1, U]`. */
  lemma MixedLayersExample(t0: Tensor, c1: Tensor, h1: Tensor, t2: Tensor, batch: nat, units: nat)
    requires t0.shape == c1.shape == h1.shape == t2.shape == [batch, units]
    ensures StateOps([Plain(t0), Gated(c1, h1), Plain(t2)], true) ==
              map[StateKey := Stacked([t0, t2]), CellKey := Stacked([c1]), HiddenKey := Stacked([h1])]
    ensures StackShape([t0, t2]) == Some([batch, 2, units])
    ensures StackShape([c1]) == Some([batch, 1, units])
  {
    var states := [Plain(t0), Gated(c1, h1), Plain(t2)];
    assert Group(StateKey, states) == [t0, t2] by { UnfoldThree(StateKey, Plain(t0), Gated(c1, h1), Plain(t2)); }
    assert Group(CellKey, states) == [c1] by { UnfoldThree(CellKey, Plain(t0), Gated(c1, h1), Plain(t2)); }
    assert Group(HiddenKey, states) == [h1] by { UnfoldThree(HiddenKey, Plain(t0), Gated(c1, h1), Plain(t2)); }
    var ops := StateOps(states, true);
    var expected := map[StateKey := Stacked([t0, t2]), CellKey := Stacked([c1]), HiddenKey := Stacked([h1])];
    assert ops.Keys == expected.Keys;
    StackOfBatches([t0, t2], batch, units);
    StackOfBatches([c1], batch, units);
  }
}
