/** Sample tensors of shape [batch, channels, height, width]. */
module Tensors {

  /** The four dimensions of a sample tensor. */
  datatype Shape = Shape(batch: nat, channels: nat, height: nat, width: nat)

  /** Number of scalars in one batch element. */
  function RowSize(s: Shape): nat
  {
    s.channels * s.height * s.width
  }

  /** A sample tensor: one flattened row of `channels * height * width`
      reals per batch element. Only the batch dimension matters to the
      sampling logic, so the inner dimensions are flattened. */
  datatype Tensor = Tensor(shape: Shape, rows: seq<seq<real>>)

  /** The rows agree with the declared shape. */
  predicate WellShaped(x: Tensor)
  {
    && |x.rows| == x.shape.batch
    && forall b :: 0 <= b < |x.rows| ==> |x.rows[b]| == RowSize(x.shape)
  }

  /** The timestep vector `x.new_full((n, ), t)`: n copies of t. */
  function Full(n: nat, t: int): seq<int>
  {
    seq(n, _ => t)
  }
}
