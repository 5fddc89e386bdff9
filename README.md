# Semicircle lines: scale arithmetic

This project models the scale arithmetic behind the semicircle-lines animation.
A row of figures each animate a `scale` from one rest point to the other. These
helpers turn that scale into three things:

- a staggered per-partition progress value (`maxScale`, `divideScale`);
- a 0/1 switch at 0.51 (`scaleFactor`);
- a per-tick signed increment (`mirrorValue`, `updateValue`).

Everything sits in the module `SemiCircleLinesStage` (`SemiCircleLinesStage.dfy`).
Each helper is a pure function over exact `real`s:

- `Math.floor` is `.Floor`.
- `Math.max` and `Math.min` are `Max` and `Min`.
- The constants `scGap = 0.05` and `scDiv = 0.51` are exact rationals.
- The partition index `i` and the direction `dir` are `int`.
- The partition count `n` and the divisors `a` and `b` are `real`, like the source's `number`.

`divideScale` is modelled as the code has it: `min(1/n, max(0, scale - i/n))`.
It is not multiplied by `n`, so one partition ranges over `[0, 1/n]`, not
`[0, 1]`.

`SumPartitions` (the total of the first `k` partitions) is a reference
definition added for stating how the partitions tile the scale. It has no
counterpart in the code.

## Model

| member | source | states |
|---|---|---|
| SemiCircleLinesStage.ScaleFactor | SemiCircleLinesStage.ts:12 | the result `k` is the floor of `scale / 0.51`: `k * 0.51 <= scale < (k + 1) * 0.51` |
| SemiCircleLinesStage.ScaleFactorSwitch | SemiCircleLinesStage.ts:12 | on `[0, 1]` the factor is 0 exactly when `scale < 0.51` and 1 exactly when `scale >= 0.51`, so it lies in {0, 1} |
| SemiCircleLinesStage.ScaleFactorMonotone | SemiCircleLinesStage.ts:12 | the factor is non-decreasing in `scale` |
| SemiCircleLinesStage.MaxScale | SemiCircleLinesStage.ts:13 | the result is never negative and at least `scale - i/n`; it is 0 exactly when `scale <= i/n`, and equals `scale - i/n` otherwise |
| SemiCircleLinesStage.DivideScale | SemiCircleLinesStage.ts:14-17 | the result lies in `[0, 1/n]`; it is 0 for `scale <= i/n`, `1/n` for `scale >= (i+1)/n`, and `scale - i/n` in between |
| SemiCircleLinesStage.DivideScaleMonotone | SemiCircleLinesStage.ts:13-17 | for fixed `i` and `n > 0`, partition progress is non-decreasing in `scale` |
| SemiCircleLinesStage.DivideScaleBounds | SemiCircleLinesStage.ts:13-17 | partition `i` is empty if and only if `scale <= i/n`, and full (`1/n`) if and only if `scale >= (i+1)/n` |
| SemiCircleLinesStage.SequentialFill | SemiCircleLinesStage.ts:13-17 | partitions fill in order: once a later partition `j` has started, every earlier partition `i < j` is full |
| SemiCircleLinesStage.SumPartitionsClamp | SemiCircleLinesStage.ts:13-17 | the first `k` partitions sum to `scale` clamped to `[0, k/n]`, so there is no gap and no overlap between partitions |
| SemiCircleLinesStage.PartitionsCoverScale | SemiCircleLinesStage.ts:13-17 | for a whole number `n > 0`, all `n` partitions together sum to `scale` clamped to `[0, 1]` |
| SemiCircleLinesStage.MirrorValue | SemiCircleLinesStage.ts:18-21 | the result is `1/a` for `0 <= scale < 0.51` and `1/b` for `0.51 <= scale < 1.02` |
| SemiCircleLinesStage.MirrorValueOnUnit | SemiCircleLinesStage.ts:18-21 | on `[0, 1]` the result is `1/a` when the factor is 0 and `1/b` when it is 1; it is positive when `a, b > 0` |
| SemiCircleLinesStage.UpdateValue | SemiCircleLinesStage.ts:22-24 | the step is 0 when `dir = 0` |
| SemiCircleLinesStage.UpdateValueOdd | SemiCircleLinesStage.ts:22-24 | reversing `dir` negates the step |
| SemiCircleLinesStage.UpdateValueMagnitude | SemiCircleLinesStage.ts:22-24 | the step's magnitude is `|mirrorValue| * 0.05 * |dir|` |
| SemiCircleLinesStage.UpdateValueSign | SemiCircleLinesStage.ts:22-24 | for `a, b > 0` and `scale` in `[0, 1]`, the step is positive, negative or zero exactly when `dir` is |
| SemiCircleLinesStage.UpdateValueDefaultStep | SemiCircleLinesStage.ts:3-24 | with `a = 1`, `b = circles = 10` and `dir` in {-1, 1}, the step's magnitude is 0.05 below 0.51 and 0.005 from 0.51 to 1 |

## Left out

- `window.innerWidth` and `window.innerHeight` (SemiCircleLinesStage.ts:1-2) are browser environment reads, not logic.
- The colour and sizing constants `sizeFactor`, `strokeFactor`, `foreColor` and `backColor` (SemiCircleLinesStage.ts:5-8) only feed drawing code. That code is not part of this model.
- `nodes` is declared as `Nodes`. No helper uses it.
- IEEE-754 rounding of `/`, `Math.floor`, `Math.min` and `Math.max` is not modelled. All arithmetic is over exact reals.
- Division by zero is excluded by preconditions, so JavaScript's `Infinity` and `NaN` are not modelled. `MaxScale` and `DivideScale` require `n > 0`. `MirrorValue` and `UpdateValue` require `a` and `b` to be non-zero.
- MirrorValue: its contract covers `scale` in `[0, 1.02)` only. For larger scales the factor is 2 or more and the blend extrapolates beyond `1/a` and `1/b`.
- The per-figure animation state, the linked chain of figures, the animator timer, canvas drawing and click handling are not part of this model. None of them appears in the modelled source.
