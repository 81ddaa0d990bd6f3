# Affine quantization core of pytorch-quantization-demo

This project models `module.py` of pytorch-quantization-demo: post-training
affine quantization of a small convolutional network, where a real value `r`
is represented by an integer code `q` with `r = scale * (q - zero_point)`.

It covers:

- deriving a scale and zero point from an observed range (`calcScaleZeroPoint`);
- quantizing and dequantizing tensors (`quantize_tensor`, `dequantize_tensor`);
- the `search` utility for a fixed-point multiplier;
- the running observer `QParam`;
- the life cycle of the quantized layers (`QConv2d`, `QLinear`, `QReLU`,
  `QMaxPooling2d`, `QConvBNReLU`): construction, `freeze` and
  `quantize_inference`;
- batch-norm folding (`fold_bn`).

All arithmetic is over Dafny `real` and `int`. `torch.round_` and Python's
`round` are round-half-to-even (`Numeric.RoundHalfEven`). Python's `int()` on a
float is truncation toward zero (`Numeric.Trunc`). A raised exception is a
`Failure`/`Fail` carrying a constructor of `Errors.Error`. Tensors are
flattened to sequences. A weight is one row per output channel. A layer also
records the length of its weight's last axis (the kernel width of a
convolution), which the batch-norm fold of `QConvBNReLU` broadcasts against.

Modules:

| file | module | contents |
|---|---|---|
| `wrappers.dfy` | `Wrappers` | `Option`, `Result` and `Outcome` |
| `errors.dfy` | `Errors` | the exceptions |
| `numeric.dfy` | `Numeric` | rounding, truncation, clamping, tensor min and max |
| `affine.dfy` | `Affine` | scale and zero point, quantize and dequantize, the in-place `clamp_`/`round_` |
| `search.dfy` | `Search` | `search` |
| `qparam.dfy` | `Observer` | class `QParam` |
| `pooling.dfy` | `Pooling` | max pooling on one axis |
| `fold.dfy` | `Fold` | `fold_bn`: the per-channel fold and its identity, and the non-affine broadcast as written |
| `layers.dfy` | `Layers` | class `QLayer`, `freeze` and the inference tails |

`int()` truncates the zero point (module.py:23) rather than rounding it: the
range `[-1, 1]` at 8 bits gives zero point 127 (`Affine.CalcExamples`).

For a degenerate range `min == max`, `scale` is 0 and `max / scale` follows
IEEE 754, because `min` and `max` are 0-d tensors:

| `max` | zero point |
|---|---|
| positive | 0 |
| negative | `qmax` |
| zero | NaN, and `int()` raises |

## Model

| member | source | states |
|---|---|---|
| Numeric.Pow2 | module.py:13 | `2 ** n` is at least 1 |
| Numeric.RoundHalfEven | module.py:36 | the result is within 1/2 of the argument, strictly off ties, and even on a tie |
| Numeric.Trunc | module.py:23 | `int()` truncates toward zero: floor for non-negative values, ceiling for negative ones |
| Numeric.Clamp | module.py:36 | the result lies in `[lo, hi]`; it is `x` inside, `lo` below and `hi` above |
| Numeric.SeqMax | module.py:72-73 | `tensor.max()` is an element and bounds every element from above |
| Numeric.SeqMin | module.py:75-76 | `tensor.min()` is an element and bounds every element from below |
| Numeric.RoundOfInteger | module.py:36 | rounding leaves an integer unchanged |
| Numeric.RoundWithin | module.py:36 | rounding a value between two integers stays between them |
| Numeric.RoundMonotone | module.py:36 | rounding preserves order |
| Numeric.SeqMaxAppend | module.py:72-73 | the maximum of old and new data is the larger of the two maxima |
| Numeric.SeqMinAppend | module.py:75-76 | the minimum of old and new data is the smaller of the two minima |
| Affine.QMax | module.py:29-33 | the highest code lies above the lowest (`2^b - 1` unsigned, `2^(b-1) - 1` signed) |
| Affine.CalcScaleZeroPoint | module.py:11-25 | fails exactly on the range `[0, 0]`; `scale * qmax == max - min`; `min < max` gives `scale > 0`; the zero point is an integer in `[0, qmax]` and is the floor of `qmax - max / scale` clamped to that range; the IEEE degenerate cases |
| Affine.CalcCoversRange | module.py:14-23 | when the range contains 0, `max` maps into `(qmax - 1, qmax]` and `min` into `(-1, 0]` |
| Affine.CalcPositiveRangeSaturates | module.py:16-21 | the all-positive range `[1, 2]` clamps the zero point to 0, so 2.0 maps to `2 * qmax` and saturates |
| Affine.CalcFailsOnlyOnZero | module.py:14-23 | a widened range fails to derive only if the original range did |
| Affine.ScaleGrowsWithRange | module.py:14 | widening the observed range never shrinks the scale |
| Affine.CalcExamples | module.py:11-25 | `[0, 1]` gives `(1/255, 0)` and `[-1, 1]` gives `(2/255, 127)` at 8 bits |
| Affine.QuantizeValue | module.py:27-38 | the code lies in the signed or unsigned range; inside it, the code is within 1/2 of `zp + x / scale`; beyond either end it saturates |
| Affine.QuantizeSeq | module.py:27-38 | `quantize_tensor` applies QuantizeValue to every element |
| Affine.QuantizeSeqRange | module.py:27-38 | every code is an integer inside the unsigned or signed range |
| Affine.QuantizeMonotone | module.py:35-36 | with a positive scale, quantizing preserves order |
| Affine.DequantizeSeq | module.py:40-41 | every element is `scale * (q - zp)` |
| Affine.DequantizeInvertsAffine | module.py:35-41 | dequantizing undoes the affine step of quantizing exactly |
| Affine.RoundTripValue | module.py:35-41 | inside the code range, dequantize(quantize(x)) is within `scale / 2` of `x` |
| Affine.RoundTrip | module.py:35-41 | the same bound for every element of a tensor inside the code range |
| Affine.RoundTripAt | module.py:35-41 | the round-trip bound for one element of a tensor |
| Affine.RequantizeCode | module.py:35-41 | an in-range integer code survives dequantize-then-quantize unchanged |
| Affine.ClampInPlace | module.py:36 | after `clamp_`, every element is the clamp of its old value |
| Affine.RoundInPlace | module.py:36 | after `round_`, every element is the rounding of its old value |
| Affine.QuantizeTensor | module.py:27-38 | the array pipeline (divide, `clamp_`, `round_`) yields QuantizeSeq |
| Search.TinyIntegerIsZero | module.py:57 | an integer error below `1e-9` in magnitude is zero |
| Search.Search | module.py:44-59 | stops at a shift `n` in `1..22`; returns `Mo = round(2^n * M)`; the approximation at `n` is exact unless `n == 22`; every earlier shift was inexact |
| Search.ExactWhenDyadic | module.py:48-52 | when `2^n * M` and `M * 7000` are integers, the shift approximation at `n` is exact |
| Observer.QParam.constructor | module.py:64-69 | a new observer has no min, max, scale or zero point |
| Observer.QParam.Update | module.py:71-78 | an empty tensor raises with nothing changed; otherwise it is appended to the history; `min`/`max` become the extremes of all data seen (set by the first call, then never growing or shrinking the wrong way); every element lies in `[min, max]`; `scale`/`zero_point` are re-derived from `min`/`max`; the scale never shrinks; NaN derivation fails with no scale |
| Observer.QParam.Widen | module.py:72-76 | the history grows by the tensor; `min`/`max` become the extremes of the whole history, set by the first call and never moving inwards; every element lies in `[min, max]`; scale and zero point are untouched and still derived from the old range inside the new one |
| Observer.QParam.Rederive | module.py:78 | the observer invariant holds again: scale and zero point are derived from `min`/`max`, absent exactly when that derivation raises; a scale never shrinks |
| Observer.QParam.ExtremesOfHistory | module.py:71-76 | the widened bounds are the min and max of the whole history |
| Observer.QParam.QuantizeTensor | module.py:80-81 | an unset scale raises; otherwise the result is unsigned quantization with the observer's scale and zero point |
| Observer.QParam.DequantizeTensor | module.py:83-84 | an unset scale raises; otherwise the result is dequantization with the observer's scale and zero point |
| Pooling.Window | module.py:301-302 | every pooling window is non-empty |
| Pooling.MaxPool | module.py:301-302 | one output per window; each output is an element of its window and bounds it from above |
| Pooling.Map | module.py:301-302 | applies a function to every element |
| Pooling.SeqMaxOfMonotoneMap | module.py:301-302 | the maximum of an order-preserving image is the image of the maximum |
| Pooling.MaxPoolCommutes | module.py:301-302 | max pooling commutes with every order-preserving map |
| Pooling.DequantizeIsMap | module.py:40-41 | dequantization is a map of its elements |
| Pooling.QuantizeIsMap | module.py:27-38 | unsigned quantization is a map of its elements |
| Pooling.MaxPoolCommutesWithDequantize | module.py:301-302 | pooling codes then dequantizing equals dequantizing then pooling |
| Pooling.MaxPoolCommutesWithQuantize | module.py:301-302 | quantizing then pooling equals pooling then quantizing |
| Pooling.RequantizeCodes | module.py:35-41 | in-range integer codes survive dequantize-then-quantize unchanged |
| Pooling.MaxPoolOnCodes | module.py:301-302 | pooling in-range codes equals quantizing the pooled real tensor, so integer-domain pooling is exact |
| Fold.GammaOver | module.py:317 | `gamma_[c] * std[c] == gamma[c]`, with gamma 1 without affine parameters (line 324) |
| Fold.ScaleRow | module.py:318 | every kernel element is multiplied by its channel's factor |
| Fold.BiasBranch | module.py:319-329 | each of the four branches yields `gamma_ * b - gamma_ * mean + beta`, with `b = 0` without a conv bias and `beta = 0` without affine parameters |
| Fold.FoldBN | module.py:315-331 | the folded weight and bias keep the convolution's shape |
| Fold.DotScale | module.py:318 | scaling a kernel row scales its output |
| Fold.ScaledRowDot | module.py:318 | a row equal to the scaled kernel has the scaled output |
| Fold.BatchNormScaled | module.py:317-320 | inference batch norm of `d + b` is `g * d + g * (b - mean) + beta` when `g * std == gamma` |
| Fold.FoldedChannel | module.py:317-329 | one channel of the folding identity, for the scalar outputs |
| Fold.FoldBNIdentity | module.py:315-331 | on every channel and input patch, the folded convolution equals convolution followed by batch norm, in all four branches |
| Fold.BroadcastWidth | module.py:325 | the broadcast last axis is one of the two operands' and, for non-empty operands, at least as long as each |
| Fold.BroadcastSource | module.py:325 | the element a broadcast position reads lies inside the source row |
| Fold.BroadcastRow | module.py:325 | one kernel row times `1 / std` without `.view`: its length is the row's positions times the broadcast width |
| Fold.NonAffineWeightAsWritten | module.py:324-325 | the non-affine weight as written keeps one row per output channel, and each row holds its kernel's positions times the broadcast width |
| Fold.NonAffineRows | module.py:324-325 | the as-written rows are whole rows of the broadcast width, and keep their length when that width is the kernel width |
| Fold.SameWidthSource | module.py:325 | broadcasting against an axis of the row's own width reads every element in place |
| Fold.BroadcastByColumn | module.py:325 | with the kernel width equal to the channel count, element `k` of a kernel is divided by `std[k % width]`, the std of its column rather than of its output channel |
| Fold.BroadcastWidens | module.py:325 | with kernel width 1, element `p` of a kernel is repeated once per channel, copy `j` divided by `std[j]` |
| Fold.NonAffineSingleChannel | module.py:324-325 | with a single output channel the as-written non-affine weight equals the per-channel fold |
| Fold.NonAffineBroadcastCounterexample | module.py:324-325 | on a concrete input the as-written non-affine fold gives 2 where batch norm gives 1 |
| Fold.FoldWithVarianceIsNotBatchNorm | module.py:396 | folding with the running variance in place of std differs from batch norm (0.25 against 0.5) |
| Layers.RoleCheck | module.py:147-156 | `freeze` passes its role checks iff each role is owned or supplied but not both (output role only for layers with weights, as at lines 257-260 and 292-295); each failure raises its own error in source order |
| Layers.Shift | module.py:173 | `x - zero_point`: adding the zero point back gives `x` |
| Layers.WeightCodes | module.py:164-165 | the weight codes keep the weight's shape and are integers in `[-zw, qmax - zw]` |
| Layers.WeightCodesRoundTrip | module.py:164-165 | a weight inside the observed range is recovered from its code within half a step |
| Layers.BiasCodes | module.py:168-169 | the bias codes keep the length and are integers in the 32-bit signed range |
| Layers.BiasCodesRoundTrip | module.py:168-169 | a bias inside the 32-bit range is recovered from its code within half a step |
| Layers.FoldedWidth | module.py:325 | the kernel width after the fold: unchanged except that a non-affine fold widens a kernel width of 1 to the channel count |
| Layers.FloatWeight | module.py:396-397 | the weight `freeze` quantizes keeps one row per channel, whole rows of the folded width (same lengths when that width is unchanged); it is the per-channel fold with affine parameters or a single channel, and the module's own weight for `QConv2d`/`QLinear` |
| Layers.FloatWeightByColumn | module.py:396 | without affine parameters and with the kernel width equal to the channel count, the weight `freeze` quantizes divides element `k` of every kernel by `running_var[k % width]` |
| Layers.FloatWeightWidens | module.py:396 | without affine parameters and with kernel width 1, the weight `freeze` quantizes repeats every kernel element once per channel, copy `j` divided by `running_var[j]` |
| Layers.FreezeFoldExamples | module.py:396 | for two channels with running variance `[1, 0.5]` and kernels of ones, the first kernel becomes `[1, 2]` at kernel width 2 and at kernel width 1, and kernel width 3 raises |
| Layers.BroadcastRowSameWidth | module.py:325 | the row `[1, 1]` against std `[1, 0.5]` becomes `[1, 2]` |
| Layers.BroadcastRowWidened | module.py:325 | the row `[1]` against std `[1, 0.5]` widens to `[1, 2]` |
| Layers.FloatBias | module.py:396-400 | the bias `freeze` quantizes is the folded one for `QConvBNReLU`, with one entry per channel, and the module's own otherwise |
| Layers.FreezeArith | module.py:162-169 | a missing scale raises; a zero output scale raises; past that `s_o * M == s_w * s_i`; a fold that does not broadcast raises with the weight and bias untouched (line 396); a zero weight scale raises with the weight and bias untouched; otherwise the weight becomes WeightCodes of the float weight and the kernel width becomes the folded width; the bias checks raise in each layer's order; success holds iff every scale is set and non-zero, the fold broadcasts and a bias exists, and then the bias becomes BiasCodes at `s_i * s_w`; the layer invariant on shapes is kept |
| Layers.TailValue | module.py:175-178 | each output is an integer in `[0, 2^b - 1]`: it equals `round(M * acc) + zo` when that is in range, else it saturates at 0 or `qmax` |
| Layers.InferenceTail | module.py:172-179 | the tail applies TailValue to every accumulator |
| Layers.TailIsQuantize | module.py:175-178 | off ties, the tail of `acc` is the output quantization of any `y` with `y / s_o == M * acc` |
| Layers.TailQuantizesOutput | module.py:162 | with `M = s_w * s_i / s_o`, the tail is the output quantization of the real accumulator `s_w * s_i * acc`, off ties |
| Layers.RunTail | module.py:175-178 | the tensor pipeline (`M * x`, `round_`, `+ zo`, `clamp_`, `round_`) yields InferenceTail |
| Layers.ReLUCodes | module.py:267-270 | each output is at least the zero point and at least its input, and is one of the two |
| Layers.ReLUCommutesWithDequantize | module.py:267-270 | clipping codes at the zero point equals ReLU on the dequantized values |
| Layers.QLayer.constructor | module.py:97-102 | the layer keeps its kind, weight, bias and kernel width, and owns a fresh input observer iff asked, a fresh output observer iff asked or it has no weights, and a weight observer iff it has weights |
| Layers.QLayer.Freeze | module.py:142-169 | a failed role check changes nothing; otherwise the supplied observers are bound as the same objects; layers without weights then pass unchanged; layers with weights end in the `M`, weight, bias and kernel width FreezeArith derives (also lines 205-226, 255-263, 291-297, 379-401) |
| Layers.QLayer.QuantizeInference | module.py:172-179 | a missing or unset input observer raises; for layers with weights, inference before `freeze` raises, and otherwise the output is InferenceTail of the operator's accumulator on the shifted input (also 229-236, 403-410); ReLU gives ReLUCodes of its input (267-270); max pooling gives MaxPool, or raises on a geometry the kernel rejects (301-302) |

## Left out

- `forward` and `FakeQuantize.apply`: `function.py` is not part of this model. Observation is modelled by `QParam.Update` directly.
- `F.conv2d`, `F.linear` and `self.conv_module(x)` are foreign kernels. Inference takes the layer's linear operator as the parameter `op`. Batch-norm folding is stated for one output channel and one flattened input patch.
- `F.max_pool2d` works on two axes, with its own tensor layout. The model pools one axis. Padding never wins a window, and the model has no dilation or `ceil_mode`.
- Layers.QLayer.Freeze: `QConvBNReLU.freeze` passes `running_var` where `fold_bn` expects the standard deviation (module.py:396). The model keeps that call as written, together with the non-affine broadcast of line 325 (Layers.FloatWeightByColumn, Layers.FloatWeightWidens). `Fold.FoldWithVarianceIsNotBatchNorm` shows that it is not batch norm. No corrected `freeze` is given, because `sqrt` is not part of the real arithmetic here.
- Layers.QLayer.constructor requires of a `QConvBNReLU` at least one output channel and a kernel width that divides every flattened kernel row (`Fold.KernelRows`); the source takes these from the shape of the wrapped convolution.
- Layers.QLayer.Freeze: a running variance whose entry is zero (division by zero in `fold_bn`) is excluded by the layer invariant (`Fold.FoldFits`).
- Layers.QLayer.Freeze also requires the weight observer's own invariant, which every observer built by the constructor keeps.
- Affine.QuantizeSeq and Observer.QParam.QuantizeTensor: with scale 0 the source divides by zero. A non-zero `x` becomes an infinity, which `clamp_` saturates to `qmin` or `qmax` by its sign; `x == 0` becomes NaN, which survives `clamp_` and `round_`. The model raises `ZeroScale` instead. The same applies to the weight codes (weight scale 0) and bias codes (bias scale `s_i * s_w` equal to 0) inside `freeze`.
- Layers.TailQuantizesOutput: the equality with output quantization excludes exact ties of `M * acc`. There the source rounds before adding the zero point, which can differ by one.
- Floating-point rounding of every product and quotient is not modelled: the model uses exact reals. `float()` casts are identities.
- Training-mode batch statistics in `QConvBNReLU.forward` (momentum update, mean, variance, `sqrt`) are not modelled: they are floating-point numerics.
- `QReLU` and `QMaxPooling2d` default to `num_bits=None`, which only breaks once an observer derives a scale. The model always gives a layer a bit width of at least 1.
- The unused observer `qb` of `QConvBNReLU` (module.py:313) is not modelled.
- `QParam.__str__` and the `print` inside `search` are I/O and are not modelled.
- The base-class `QModule.freeze` and `quantize_inference` (module.py:104-108) are placeholders that the model does not represent separately.

## Findings

| source | as written | input that shows it | evidently intended | confidence | as-written member | corrected member |
|---|---|---|---|---|---|---|
| module.py:324-325 | without affine parameters, `weight * gamma_` has no `.view(out_channels, 1, 1, 1)`, so `gamma_` broadcasts along the last (kernel-width) axis: with a kernel width equal to the channel count, kernel column `k` is divided by `std[k]`; a kernel width of 1 widens every kernel to one copy per channel; any other width raises | two output channels, 1x2 kernels of ones, std `[1, 0.5]`, zero mean, patch `[0, 1]`: the fold gives 2 on channel 0, batch norm gives 1 | scale each output channel's kernel by `1 / std[c]`, as the affine branch does at line 318 | high, not executed | Fold.NonAffineBroadcastCounterexample | Fold.FoldBNIdentity |
