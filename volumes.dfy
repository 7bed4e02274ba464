/**
 * Image and mask volumes, the error kinds of the pipeline, and the pointwise
 * boolean combinators (numpy's logical_xor / logical_or on equal shapes).
 *
 * A volume is an N-dimensional array stored flat: `shape` lists the extent of
 * each axis and `data` holds product(shape) samples.
 */
module Volumes {

  datatype Option<+T> = None | Some(value: T)

  /** The errors a stage can raise; an `Err` stands for a Python exception. */
  datatype Error =
    | ShapeMismatch      // operands of a pointwise operation disagree in shape
    | NotFound           // the persistence adapter has no artifact for the key
    | ReadFailure        // an artifact exists but cannot be read back

  datatype Result<+T> = Ok(value: T) | Err(error: Error)

  type Shape = seq<nat>

  /** Number of samples of a volume of the given shape. */
  function Size(shape: Shape): nat
  {
    if shape == [] then 1 else shape[0] * Size(shape[1..])
  }

  datatype Volume<T> = Volume(shape: Shape, data: seq<T>)

  /** A volume whose flat data fills its shape exactly. */
  type Grid<T> = v: Volume<T> | |v.data| == Size(v.shape) witness Volume([0], [])

  /** A boolean volume (an organelle mask). */
  type Mask = Grid<bool>

  /** A volume of intensities (one channel, or all channels stacked). */
  type Image = Grid<real>

  /** The boolean operators numpy applies elementwise. */
  datatype BoolOp = XorOp | OrOp | AndNotOp

  function Apply(op: BoolOp, x: bool, y: bool): bool
  {
    match op
    case XorOp => x != y
    case OrOp => x || y
    case AndNotOp => x && !y
  }

  /** `op` applied to corresponding elements of two flat sample sequences. */
  function Pointwise(a: seq<bool>, b: seq<bool>, op: BoolOp): (r: seq<bool>)
    requires |a| == |b|
    ensures |r| == |a|
    ensures forall i :: 0 <= i < |r| ==> r[i] == Apply(op, a[i], b[i])
  {
    if a == [] then [] else [Apply(op, a[0], b[0])] + Pointwise(a[1..], b[1..], op)
  }

  /** Elementwise exclusive or of two masks of one shape (np.logical_xor). */
  function Xor(a: Mask, b: Mask): (r: Mask)
    requires a.shape == b.shape
    ensures r.shape == a.shape
    ensures forall i :: 0 <= i < |r.data| ==> (r.data[i] <==> (a.data[i] != b.data[i]))
  {
    Volume(a.shape, Pointwise(a.data, b.data, XorOp))
  }

  /** Elementwise or of two masks of one shape (np.logical_or). */
  function Or(a: Mask, b: Mask): (r: Mask)
    requires a.shape == b.shape
    ensures r.shape == a.shape
    ensures forall i :: 0 <= i < |r.data| ==> (r.data[i] <==> a.data[i] || b.data[i])
  {
    Volume(a.shape, Pointwise(a.data, b.data, OrOp))
  }

  /** Elementwise `a AND NOT b`: the voxels of `a` outside `b`. */
  function AndNot(a: Mask, b: Mask): (r: Mask)
    requires a.shape == b.shape
    ensures r.shape == a.shape
    ensures forall i :: 0 <= i < |r.data| ==> (r.data[i] <==> a.data[i] && !b.data[i])
  {
    Volume(a.shape, Pointwise(a.data, b.data, AndNotOp))
  }

  /** `outer` has the shape of `inner` and is set wherever `inner` is. */
  predicate Contains(outer: Mask, inner: Mask)
  {
    outer.shape == inner.shape &&
    forall i :: 0 <= i < |inner.data| ==> inner.data[i] ==> outer.data[i]
  }

  /** The mask of the given shape with every voxel equal to `b`. */
  function Fill(shape: Shape, b: bool): (r: Mask)
    ensures r.shape == shape
    ensures forall i :: 0 <= i < |r.data| ==> r.data[i] == b
  {
    Volume(shape, seq(Size(shape), _ => b))
  }

  /** Two masks of one shape that agree voxel by voxel are equal. */
  lemma MaskExtensionality(a: Mask, b: Mask)
    requires a.shape == b.shape
    requires forall i :: 0 <= i < |a.data| ==> a.data[i] == b.data[i]
    ensures a == b
  {
  }
}
