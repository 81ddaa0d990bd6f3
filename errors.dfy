/** The exceptions the quantization core can raise, one constructor per
    distinct failure of module.py. */
module Errors {

  datatype Error =
    /** `int(nan)` in calcScaleZeroPoint: the observed range is the single value 0. */
    | NaNZeroPoint
    /** `tensor.max()` / `tensor.min()` on an empty tensor. */
    | EmptyTensor
    /** Arithmetic with a scale or zero point that is still `None` (no observation yet). */
    | Uninitialized
    /** Python float division by a zero output scale when computing `M`. */
    | DivisionByZero
    /** Quantizing with a zero scale; the source would produce infinities or NaN. */
    | ZeroScale
    /** freeze: `qi` is owned by the layer and was supplied as well. */
    | QiAlreadyProvided
    /** freeze: `qi` is neither owned by the layer nor supplied. */
    | QiNotProvided
    /** freeze: `qo` is owned by the layer and was supplied as well. */
    | QoAlreadyProvided
    /** freeze: `qo` is neither owned by the layer nor supplied. */
    | QoNotProvided
    /** Attribute access on a `qi` / `qo` the layer does not have. */
    | MissingQParam
    /** Use of the multiplier `M`, which only freeze creates. */
    | NotFrozen
    /** Writing the quantized bias of a convolution or linear module that has no bias. */
    | MissingBias
    /** `fold_bn` without affine parameters: `1 / std`, one entry per output
        channel, does not broadcast against the kernel width. */
    | BroadcastMismatch
    /** `F.max_pool2d` rejects the geometry: an empty input, a zero kernel or
        stride, padding over half the kernel, or no complete window. */
    | InvalidPoolGeometry
}
