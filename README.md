# popdyn core in Dafny

popdyn is a 4-neighbour cellular automaton on 2-D grids. This project
models its core in Dafny, with grid values as `real`. Three modules
model the engine of `popdyn/flow.py`:

- `Arith` holds sums over rows and grids, flat-index arithmetic and
  counting of multiples.
- `GridOps` holds the grid operations:
  - the edge-replicating `pad` and its inverse `center_cut`;
  - `null_edges`, which overwrites the border of one layer in place;
  - the four directional neighbour views `calc_shifted` and their
    inverse scatter `calc_unshifted`.
- `CellSpaces` holds the `CellSpace` class:
  - the flat index maps built by `_make_indexes`;
  - `shift`, which gathers neighbour values through those maps into a
    fresh 4-D array;
  - `step`, which sums the outputs of the rules;
  - `flow`, which runs the steps and keeps snapshots on a modulo cadence.

The module `Rules` models the rules of `popdyn/rules.py`. They evolve an
abstract `Cell` that holds three things:

- a map from canvas names to 2-D arrays, which the rules update in place;
- the neighbour views of each canvas;
- `imap_unshifted`.

Each rule's `Evolve` method is proved against a specification function on
grid values:

- `FlowStep` for `FlowRule`. It keeps only the steepest height difference
  or differences of each cell, scales them by the flow factor, subtracts
  them, and adds back the inflow gathered through `imap_unshifted` from a
  zero-padded copy.
- `AddRain` for `RainFallClosed`, and for `RainBurst` on the calls whose
  step counter is a multiple of `burst_step`.

The lemmas prove the following:

- the shape and contents of the padding, and that cutting the centre
  undoes it;
- the neighbour formulas of the four views, and the inverse relation of
  unshift and shift off one zeroed edge per direction;
- the flat-index formulas of the index maps;
- that `shift` reads the neighbour clamped into the canvas;
- that `step` sums the rule outputs in rule order, and the snapshot count
  of `flow`;
- that the flow rule selects the steepest directions;
- the flow rule's conservation claim. In general the total terrain falls
  by exactly the outflow sent over the edges of the canvas. With the
  edge-padded views the engine computes, the total is unchanged.
- that rain raises the total water by `net_water`, and the burst count
  `ceil(n / burst_step)`.

The two source files target slightly different engines. `flow.py`'s
`CellSpace` holds one stacked 3-D canvas and sums what the rules return.
`rules.py` expects a cell with named canvases. The model keeps both
designs as written:

- The engine's rules are functions from canvas to canvas.
- The rules are methods on the abstract `Cell`.
- The lemma `Rules.EngineMapsFeedRules` connects the two through the
  index maps, and `Rules.EngineViewsAreEdgeViews` connects them through
  the views.

## Model

| member | source | states |
|---|---|---|
| GridOps.Pad | popdyn/flow.py:5-7 | The padded canvas has shape (H+2, W+2, L). Every cell holds the layer vector of the nearest cell of the domain, so border cells repeat the edge. |
| GridOps.PadThenSliceLayers | popdyn/flow.py:6 | Padding the layer axis and slicing it back with `[1:-1]` leaves every layer vector as it was, so the layer axis is not padded. |
| GridOps.CenterCut | popdyn/flow.py:12-13 | `arr[1:-1, 1:-1]` keeps rows 1 to H and, within them, columns 1 to W. It is empty below two rows. |
| GridOps.CenterCutPad | popdyn/flow.py:5-13 | `center_cut(pad(x)) == x` for every canvas that can be padded. |
| GridOps.AxisIndex | popdyn/flow.py:16-19 | An index `axis` in `[-L, L)` selects a layer below L. It selects layer `axis` when it is non-negative and layer `L + axis` when it is negative. |
| GridOps.NullEdges | popdyn/flow.py:15-20 | Layer `axis` gets `value` exactly on the slices `[:depth]` and `[-depth:]` of both axes, in place, and the same array is returned. A negative `axis` counts from the last layer, and the defaults are `depth=1` and `value=0`. Every other cell and every other layer keeps its value. |
| GridOps.InBorderFrame | popdyn/flow.py:15-20 | The cells null_edges overwrites are the depth-wide frame of the grid. With depth 0 they are the whole grid, because `[-0:]` selects the whole axis. |
| GridOps.RollRows | popdyn/flow.py:26-60 | `np.roll(g, k, axis=0)` keeps the grid's shape. |
| GridOps.RollCols | popdyn/flow.py:26-60 | `np.roll(g, k, axis=1)` keeps the grid's shape. |
| GridOps.ZeroRows | popdyn/flow.py:26-60 | The slice assignment `g[lo:hi, :] = 0` keeps the grid's shape. |
| GridOps.ZeroCols | popdyn/flow.py:26-60 | The slice assignment `g[:, lo:hi] = 0` keeps the grid's shape. |
| GridOps.CalcShifted | popdyn/flow.py:22-41 | There are four views, each the shape of the input. |
| GridOps.CalcShiftedNeighbours | popdyn/flow.py:22-41 | View d at (r, c) holds the d-neighbour `g[r+1][c]`, `g[r-1][c]`, `g[r][c+1]` or `g[r][c-1]`. It holds 0 where that neighbour lies past the last row, first row, last column or first column. |
| GridOps.CalcShiftedAt | popdyn/flow.py:22-41 | The same, for one direction and cell. |
| GridOps.CalcUnshifted | popdyn/flow.py:43-62 | There are four views, each the shape of the input views. |
| GridOps.CalcUnshiftedFromOpposite | popdyn/flow.py:43-62 | View d of calc_unshifted at (r, c) takes view d at the opposite neighbour of (r, c), or 0 where that neighbour lies outside. |
| GridOps.CalcUnshiftedAt | popdyn/flow.py:43-62 | The same, for one direction and cell. |
| GridOps.UnshiftShift | popdyn/flow.py:22-62 | `calc_unshifted(calc_shifted(x))[d]` equals x everywhere except one zeroed edge: the first row for d=0, the last row for 1, the first column for 2 and the last column for 3. |
| GridOps.UnshiftNeighboursAt | popdyn/flow.py:43-62 | Any four views holding the neighbours of a grid are taken back to the grid by calc_unshifted, except on that edge. |
| GridOps.CenterCutShiftedAt | popdyn/flow.py:89-90 | The centre cut of view d of a grid holds the d-neighbour of the interior cell (r+1, c+1). |
| CellSpaces.IndexGrid | popdyn/flow.py:86-88 | `np.arange(h*w).reshape(h, w)` has shape (h, w). Its entries are the row-major indices, which `CenterIndexFormula` and `MakeIndexes` state. |
| CellSpaces.ShiftedIndexMaps | popdyn/flow.py:90 | `imap_shifted` consists of four maps of the canvas shape. Their entries are stated by `ShiftedIndexFormula`. |
| CellSpaces.UnshiftedIndexMaps | popdyn/flow.py:91-96 | `imap_unshifted` consists of four maps, and map d is shifted map `Opposite(d)` (the order [1, 0, 3, 2]). |
| CellSpaces.ShiftedIndexFormula | popdyn/flow.py:84-90 | `imap_shifted[d][r][c]` is the flat padded index of the d-neighbour of the padded cell (r+1, c+1), e.g. `(r+2)*(W+2)+(c+1)` for d=0. It lies in `[0, (H+2)*(W+2))`. |
| CellSpaces.PaddedNeighbourIndexBound | popdyn/flow.py:84-90 | Those neighbour indices lie inside the padded grid. |
| CellSpaces.UnshiftedIndexFormula | popdyn/flow.py:91-96 | `imap_unshifted[d]` is `imap_shifted` of the opposite direction (the order [1, 0, 3, 2]), so it holds the flat index of the opposite neighbour. |
| CellSpaces.CenterIndexFormula | popdyn/flow.py:88-89 | `imap_center[r][c]` is the flat padded index `(r+1)*(W+2)+(c+1)` of cell (r, c). |
| CellSpaces.MakeIndexes | popdyn/flow.py:84-96 | The five maps built by `_make_indexes` have these properties. `imap` and `imap_padded` are the row-major index grids of the canvas and the padded canvas. `imap_center` holds each cell's padded index. `imap_shifted` holds each neighbour's padded index, and `imap_unshifted` pairs each direction with its opposite. |
| CellSpaces.CellSpace.IndexesLayout | popdyn/flow.py:78 | Every engine's index maps have that layout for its canvas shape. |
| CellSpaces.LayerFlat | popdyn/flow.py:108 | `padded_canvas[:, :, j].flat[k]`, the row-major read of layer j. Its meaning for the engine's indices is stated by `PaddedReadIsClampedNeighbour`. |
| CellSpaces.PaddedReadIsClampedNeighbour | popdyn/flow.py:104-110 | Reading layer j of the padded canvas at the d-neighbour index gives layer j of the d-neighbour clamped into the canvas. |
| CellSpaces.ShiftOutwardIsOwnValue | popdyn/flow.py:104-110 | With edge padding, an edge cell's outward view is its own value. |
| CellSpaces.CellSpace.constructor | popdyn/flow.py:66-82 | The canvas is the initial value and the padded canvas is its padding. The shapes are recorded, `shifted_canvases` is a fresh array of the clamped neighbour views, and `maps` is empty. |
| CellSpaces.CellSpace.ResetMaps | popdyn/flow.py:98-99 | `maps` becomes empty. |
| CellSpaces.CellSpace.UpdateMaps | popdyn/flow.py:101-102 | `maps` gets the current canvas appended. |
| CellSpaces.CellSpace.Shift | popdyn/flow.py:104-110 | The result is a fresh (4, H, W, L) array whose entry [d, r, c, j] is layer j of the d-neighbour of (r, c), clamped into the canvas. |
| CellSpaces.CellSpace.ShiftLayer | popdyn/flow.py:106-108 | One assignment of the loop fills view i, layer j and leaves every other entry unchanged. |
| CellSpaces.CellSpace.AccumulateRules | popdyn/flow.py:118-120 | Starting from zeros, it adds every rule's output in rule order. |
| CellSpaces.CellSpace.Step | popdyn/flow.py:112-124 | The new canvas is the sum of the rules' outputs. The padded canvas follows it, and the recomputed views go to `shiftedCanvas`. |
| CellSpaces.CellSpace.SetCanvas | popdyn/flow.py:122-123 | The canvas is replaced and the padding recomputed. |
| CellSpaces.SumOutputs | popdyn/flow.py:118-120 | The canvas after one step keeps the canvas shape. `SumOutputsAt` states its entries. |
| CellSpaces.SumOutputsAt | popdyn/flow.py:118-120 | Each entry of the new canvas is the sum over the rules of that entry of their outputs. |
| CellSpaces.SumOutputsSingle | popdyn/flow.py:118-120 | With one rule, the new canvas is that rule's output. |
| CellSpaces.AddZerosLeft | popdyn/flow.py:118-120 | Adding to the zero canvas leaves the canvas as it was. |
| CellSpaces.CellSpace.Flow | popdyn/flow.py:126-135 | `flow(nstep=100, savestep=5)` clears `maps` and keeps the start canvas. It then runs nstep steps (none when nstep is not positive) and keeps the canvas after step i exactly when `i % savestep == 0`. After at least one step, `shifted_canvas` is a fresh array of the views of the final canvas. Otherwise it is unchanged. |
| CellSpaces.CellSpace.StepMany | popdyn/flow.py:132-135 | The first k passes of that loop start from the start canvas with only the start saved. They reach the canvas after k steps and the snapshots of k steps. After at least one pass, `shifted_canvas` is a fresh array of the views of the canvas reached, and with k = 0 it is unchanged. |
| CellSpaces.CellSpace.StepAndSave | popdyn/flow.py:132-135 | One pass of that loop does step i, then takes a snapshot when it saves. Afterwards `shifted_canvas` is a fresh array of the views of the new canvas. |
| CellSpaces.Run | popdyn/flow.py:132-134 | The canvas after n steps keeps the canvas shape. |
| CellSpaces.SaveAfter | popdyn/flow.py:135 | Step i saves when `i % savestep == 0`. numpy's integer modulo by 0 yields 0, so with savestep 0 every step saves. |
| CellSpaces.Snapshots | popdyn/flow.py:130-135 | The snapshots of flow are never empty and start with the start canvas. |
| CellSpaces.SnapshotsShape | popdyn/flow.py:126-135 | flow keeps 1 + (number of saving steps) canvases. The first is the start, and after a saving last step the last is the final canvas. |
| CellSpaces.SnapshotCount | popdyn/flow.py:126-135 | For a positive savestep the snapshot count is `1 + ceil(nstep / savestep)`. |
| CellSpaces.SnapshotCountTenByFive | popdyn/flow.py:126-135 | `flow(10, 5)` keeps 3 canvases. |
| Arith.CountMultiplesCeil | popdyn/flow.py:132-135 | A counter running 0..n-1 hits a multiple of a positive period p exactly `ceil(n / p)` times. |
| Rules.NewFlowRule | popdyn/rules.py:15-17 | The constructor fails (ValueError) exactly when `flow_factor >= 1`. There is no lower bound, and it otherwise records the factor. |
| Rules.FlowRule.Evolve | popdyn/rules.py:19-33 | The terrain array is updated in place to `FlowStep` of its old contents, and the cell's own canvases are returned. Arrays other than the terrain array are unchanged. |
| Rules.FlowRule.CalcFlows | popdyn/rules.py:45-48 | vmap loses each cell's total outflow and gains the gathered inflow, in place, and vmap is returned. |
| Rules.FlowRule.CalcFlowsInflow | popdyn/rules.py:35-43 | The loop over directions builds the zero-padded outflow of each direction read at `imap_unshifted[d]`, and returns their sum over the directions. |
| Rules.SubInPlace | popdyn/rules.py:46 | `vmap -= b`, entry by entry. |
| Rules.AddInPlace | popdyn/rules.py:47 | `vmap += b`, entry by entry. |
| Rules.Diffs | popdyn/rules.py:23 | `height_local - height_shifted`, broadcast over the four views, gives four grids of the canvas shape. |
| Rules.Retained | popdyn/rules.py:25 | `diffs[diffs < diffs.max(axis=0)] = 0` keeps the shape. `RetainedSteepest` states which entries survive. |
| Rules.Scale | popdyn/rules.py:28 | `diffs * flow_factor` keeps the shape. |
| Rules.Outflow | popdyn/rules.py:23-28 | The outflow of evolve has four grids of the canvas shape. `PitDrawsIn` and `EdgeViewsOutwardZero` state its values. |
| Rules.RetainedSteepest | popdyn/rules.py:23-25 | An entry survives `diffs[diffs < diffs.max(axis=0)] = 0` exactly when it equals its cell's maximum over the four directions, so tied maxima all survive. The maximum bounds all four and is one of them. |
| Rules.PitKeepsNegative | popdyn/rules.py:23-25 | Negative differences are not clamped: in a cell lower than all four views the maximum difference is negative and is kept. |
| Rules.PitDrawsIn | popdyn/rules.py:23-28 | With a positive flow factor such a pit has a negative outflow in some direction. |
| Rules.EngineMapsFeedRules | popdyn/flow.py:84-96 | The engine's `imap_unshifted` addresses, for each cell and direction, the padded cell of the opposite neighbour. |
| Rules.PadZero | popdyn/rules.py:39 | `np.pad(outflow[i], pad_width=1, mode="constant", constant_values=0)` has shape (H+2, W+2). |
| Rules.FlatRead | popdyn/rules.py:40 | `tmp.flat[k]`, the row-major read of a grid. `GatherReadsOpposite` states its meaning for the engine's maps. |
| Rules.GatherOne | popdyn/rules.py:39-40 | One pass of the loop gives a grid of the canvas shape. |
| Rules.Gathered | popdyn/rules.py:36-42 | `shifted_landslide` consists of four grids of the canvas shape. `GatherReadsOpposite` and `GatheredTotal` state their values and totals. |
| Rules.SumAxis0 | popdyn/rules.py:43 | `.sum(axis=0)` gives a grid of the canvas shape. `SumAxis0Total` states its total. |
| Rules.Redistribute | popdyn/rules.py:45-48 | The value `calc_flows` leaves in vmap has the canvas shape. `RedistributeTotal` states its total. |
| Rules.FlowStep | popdyn/rules.py:19-33 | The terrain after evolve has the canvas shape. `FlowStepConserves` states its total. |
| Rules.GatherReadsOpposite | popdyn/rules.py:35-43 | Through those maps, `_calc_flows` gathers for (r, c) and direction d what the opposite neighbour sends in direction d, or 0 from outside the canvas. This equals `calc_unshifted` of the outflow. |
| Rules.GatheredTotal | popdyn/rules.py:37-41 | The inflow gathered from direction d totals that direction's outflow minus what it sends over the edge of the canvas. |
| Rules.RedistributeTotal | popdyn/rules.py:45-48 | calc_flows changes the total by exactly minus the outflow sent over the edges. |
| Rules.EdgeViewsOutwardZero | popdyn/rules.py:23-28 | With edge-padded views an edge cell's outward difference, and so its outflow, is 0. |
| Rules.EdgeViewsNoEdgeOutflow | popdyn/rules.py:23-28 | With edge-padded views nothing is sent over the edges. |
| Rules.FlowStepConserves | popdyn/rules.py:7-8 | The conservation claim. The total terrain after evolve is the old total minus the edge outflow, and with edge-padded views it is exactly the old total. |
| Rules.EngineViewsAreEdgeViews | popdyn/flow.py:104-110 | The views `shift` computes are edge-padded views, so they meet the condition of the conservation lemma. |
| Rules.AddRain | popdyn/rules.py:67-70 | The water after rain has the canvas shape. `AddRainTotal` states its total. |
| Rules.RainMapTotal | popdyn/rules.py:67-69 | The rain map totals `net_water`. |
| Rules.AddRainTotal | popdyn/rules.py:64-74 | Rain raises the total water by exactly `net_water`. |
| Rules.RainInPlace | popdyn/rules.py:69-70 | `water_local += rainmap` is applied in place. On a canvas with no cells nothing changes. |
| Rules.RainFallClosed.Evolve | popdyn/rules.py:52-74 | The rule's `net_water` defaults to 1e5. The water array becomes `AddRain` of its old contents, and the cell's own canvases are returned. Other arrays are unchanged. |
| Rules.RainBurst.constructor | popdyn/rules.py:78-88 | The counter starts at 0, and the amount and period are recorded. |
| Rules.RainBurst.Evolve | popdyn/rules.py:90-103 | It rains (`AddRain`) exactly when `step % burst_step == 0`, otherwise the water is unchanged. `step` increases by one on every call, and the cell's canvases are returned. |
| Rules.RainBurst.BurstCount | popdyn/rules.py:87-103 | After n calls from construction with a positive `burst_step`, it has rained `ceil(n / burst_step)` times. |

## Left out

- `print` progress and diagnostics (popdyn/flow.py:133, popdyn/rules.py:71, 99) are output only.
- The random generators and the `fraction` and `net_evap` options of the rain rules (popdyn/rules.py:52-62, 78-88) are never read by an active `evolve`.
- The commented-out code in popdyn/rules.py is not live behaviour.
- `dpad` and `dcenter_cut` (popdyn/flow.py:3-4, 9-10) are not modelled: `dpad` returns nothing and neither is used.
- Floating-point rounding: values are `real`. numpy's NaN and infinity are not modelled.
- The internals of `np.roll`, `np.pad` and `.flat` are not modelled. Only their index semantics are.
- `LayerFlat` and `FlatRead` read 0 at a negative flat index, where numpy's `.flat` counts from the end. They also read 0 past the end, where numpy raises. The index-map lemmas show the engine's maps produce neither.
- Canvases are values, and `copy.deepcopy` of the initial canvas (popdyn/flow.py:70) is a value copy. In the source, `update_maps` appends `self.canvas` by reference (popdyn/flow.py:102), so the last snapshot is the live canvas until the next `step` reassigns it. The model does not capture that aliasing. Because a rule is a function of the canvas, no rule can mutate a snapshot through it.
- `flow.pad` and `flow.center_cut` refer to the module's own functions.
- CellSpaces.CellSpace.Step: a rule is a function of the canvas. A rule that reads other engine state or keeps its own state is not captured in the engine model; `RainBurst` is modelled on its own.
- CellSpaces.CellSpace.Step: every rule must return a canvas of the canvas shape. `new_canvas += rule.evolve(self)` also accepts a scalar or any shape that broadcasts to the canvas, such as (L,) or (1, W, L), and the model does not capture those. Only shapes that cannot broadcast make numpy raise.
- The views `step` computes go to `shiftedCanvas`, as in the source, and `shiftedCanvases` keeps the constructor's views. Its `modifies` clause shows `shiftedCanvases` is never reassigned.
- CellSpaces.CellSpace.constructor: the initial canvas needs at least one row, column and layer, because numpy's edge padding rejects an empty axis.
- The index maps are `const` fields defined by the expressions of `_make_indexes` rather than assigned by a method call. Their layout is proved by `MakeIndexes` and `IndexesLayout`.
- GridOps.NullEdges: `depth` is a natural number, so negative depths, which Python slicing would accept, are not modelled. An `axis` outside `[-L, L)`, where numpy raises IndexError, is excluded.
- Rules.FlowRule.Evolve: the named keys must be present, and Python raises KeyError otherwise. The terrain, its four views and the four maps of `imap_unshifted` must all have the canvas shape. The source also runs with fewer than four maps, and then sums fewer directions. It also runs with views that broadcast, such as shape (4, 1, W). The model covers neither case.
- Rules.RainBurst.Evolve: a `burst_step` of 0 is excluded, because Python raises ZeroDivisionError there.
- The checkerboard instability of large flow factors is numerics, not logic.
