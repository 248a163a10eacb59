/** Graph tensors as opaque handles with a static shape, the per-layer state
    containers of an unrolled recurrent model, and the shape of `tf.stack`.
    Nothing here evaluates a tensor. */
module Tensors {

  import opened Wrappers

  /** A node of the compute graph, identified by `id`, with a fully known shape. */
  datatype Tensor = Tensor(id: nat, shape: seq<nat>)

  /** The state of one layer: a single tensor, or an LSTM cell/hidden pair. */
  datatype LayerState = Plain(t: Tensor) | Gated(c: Tensor, h: Tensor)

  /** The unrolled model the evaluator drives; only the attributes the
      evaluator reads. */
  datatype ModelHandle = ModelHandle(
    state: seq<LayerState>,
    inputHolders: Tensor,
    inputs: Tensor,
    outputs: Tensor,
    loss: Tensor,
    accuracy: Tensor)

  /** What a summary op extracts per step: a group of tensors stacked on a new
      axis 1, one tensor as is, or the gradient of `ys` with respect to `xs`. */
  datatype Signal = Stacked(parts: seq<Tensor>) | Raw(t: Tensor) | Gradient(ys: Tensor, xs: Tensor)

  ghost predicate SameShape(parts: seq<Tensor>, shape: seq<nat>) {
    forall j :: 0 <= j < |parts| ==> parts[j].shape == shape
  }

  /** The static shape of `tf.stack(parts, axis=1)`, or None where `tf.stack`
      refuses: no parts, parts of differing shapes, or rank-0 parts (axis 1 out
      of range). */
  function StackShape(parts: seq<Tensor>): (s: Option<seq<nat>>)
    ensures s.Some? <==> |parts| > 0 && |parts[0].shape| >= 1 && SameShape(parts, parts[0].shape)
    ensures s.Some? ==> s.value == [parts[0].shape[0], |parts|] + parts[0].shape[1..]
  {
    if |parts| > 0 && |parts[0].shape| >= 1 && forall j :: 0 <= j < |parts| ==> parts[j].shape == parts[0].shape then
      Some([parts[0].shape[0], |parts|] + parts[0].shape[1..])
    else
      None
  }

  /** Stacking `k >= 1` tensors of shape `[B, U]` on axis 1 gives `[B, k, U]`. */
  lemma StackOfBatches(parts: seq<Tensor>, batch: nat, units: nat)
    requires |parts| > 0
    requires SameShape(parts, [batch, units])
    ensures StackShape(parts) == Some([batch, |parts|, units])
  {
    var s := [batch, units];
    assert parts[0].shape == s;
    assert s[0] == batch && s[1..] == [units];
    assert SameShape(parts, parts[0].shape);
    assert [batch, |parts|] + s[1..] == [batch, |parts|, units];
  }
}
