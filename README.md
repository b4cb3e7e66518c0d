# Border sketches and symmetry grid editor, modelled in Dafny

The repository is a set of browser sketches for drawing decorative borders around a canvas.

- `borders/borders.js` draws into a buffer at twice the canvas resolution.
- `circles/circles.js` draws straight onto the canvas.
- `script.js` is a separate pixel-grid editor. It has mirror symmetry, a pen, an eraser and a flood fill.

This project models the logic of these files that is not drawing:

- **The two border layout engines.** Each produces the sequence of motif placements it hands to the renderer. Every layer has an inset (`borderPos`), a step between elements (`totalSpacing`) and a scroll offset. The four edges are visited top, right, bottom, left. One per-layer element counter, shared by all four edges, is capped at the ceiling of the perimeter over the step.
  - The buffer engine counts each edge's elements with a ceiling division.
  - The canvas engine walks each edge with an inclusive stepping loop.
- The rules next to the engines:
  - the quarter turn of each edge;
  - the invert-colours swap;
  - letterboxing of raster motifs;
  - the 80% canvas fit, with an optional orientation flip, plus the 1.2 height stretch of the buffer sketch;
  - the throttled scroll tick of `animationLoop`;
  - the redraw gating of `draw`.
- **The grid editor.** It is a class whose square boolean grid field is rewritten by each operation:
  - `setCell` with its three mirror flags;
  - the recursive 4-connected flood fill;
  - clearing and resizing;
  - tool selection;
  - click and hover dispatch.

## Modules

- `Layout` (`layout.dfy`): what both engines share:
  - edges and placements;
  - the quarter-turn rule;
  - colours;
  - ceiling division;
  - `Quotas`, which states how one budget is shared by edges visited in order.
- `Canvas` (`canvas.dfy`): the named aspect ratios and the fit of a ratio into 80% of the window.
- `Animation` (`animation.dfy`): the throttled tick, single and over a run of frame callbacks.
- `Borders` (`borders.dfy`): the buffer sketch. It holds the layout specification functions, the imperative `DrawBorderToBuffer` proved against them, the element routine and letterbox, the stretched canvas fit, and the class `Sketch` with the module-level state.
- `Circles` (`circles.dfy`): the canvas sketch, built the same way with while loops for the edge walks.
- `SymmetryGrid` (`grid.dfy`): the grid editor.
  - Grids are values, `seq<seq<bool>>` indexed `g[y][x]`.
  - The specification is `Paint` (a set of cells written), `Targets` (the cells one stroke writes) and `Flooded` (the component flipped).
  - The class `GridEditor` holds `gridState` as a field that its methods reassign.

The sizes, spacings, widths and offsets of the engines and the grid's coordinates are modelled as integers. Most sliders step by whole numbers, and `Math.floor` of an integer is the integer itself. Two sources of fractions are not covered: the buffer sketch's element-spacing slider has no step, and its sine animation produces fractional sizes and spacings (see "## Left out"). The canvas fit and the letterbox are modelled over exact reals, with `.Floor` for `Math.floor`.

p5.js runs `draw` at once when `redraw()` is called outside `setup`. So every callback that ends with `needsRedraw = true; redraw()` is modelled as a method that ends with the `Draw` step and returns the frame it paints.

## Model

| member | source | states |
|---|---|---|
| Layout.QuarterTurns | borders/borders.js:480-487 | top, right, bottom and left are turned 0, 1, 2 and 3 quarter turns |
| Layout.EdgeOfTurns | circles/circles.js:390-396 | the quarter-turn count determines the edge back, so the rotation rule is injective |
| Layout.QuarterTurnsFollowTraversal | borders/borders.js:430-460 | the i-th edge visited is the one turned i quarter turns |
| Layout.ElementRotation | borders/borders.js:473-487 | the rotation is the edge's quarter turns, and the extra oscillation is on exactly when scrolling is enabled |
| Layout.Colors | borders/borders.js:383-384 | background and foreground are the two chosen colours; inverted, the border colour becomes the background |
| Layout.InvertSwapsColors | borders/borders.js:383-384 | toggling invert swaps background and foreground |
| Layout.CeilDiv | borders/borders.js:417 | `Math.ceil(a / b)` for a positive divisor: the q with (q-1)·b < a ≤ q·b, non-negative for non-negative a |
| Layout.CeilDivUnique | borders/borders.js:417 | the bracketing property fixes the ceiling uniquely |
| Layout.CeilCountIndices | borders/borders.js:431 | `for (i = 0; i < ceil(len/step); i++)` runs exactly for the i with i·step < len, and for none when len ≤ 0 |
| Layout.CeilDivScale | borders/borders.js:414-417 | scaling run and step by the same factor leaves the ceiling unchanged |
| Layout.Quotas | borders/borders.js:419-460 | the counter shared by edges visited in order gives each edge at most what it holds, one quota per edge |
| Layout.QuotasTotal | borders/borders.js:419-460 | together the edges receive min(budget, total held) |
| Layout.QuotaIsRemainingBudget | borders/borders.js:432 | each edge receives min(what it holds, budget left by the earlier edges), and the earlier edges stay within the budget |
| Layout.QuotasTruncateOnlyLater | borders/borders.js:432-459 | once an edge is cut short by the budget, every later edge receives nothing |
| Layout.QuotasUntruncated | borders/borders.js:432-459 | when the budget covers all edges, every edge receives all it holds |
| Layout.EdgeQuotas | borders/borders.js:419-460 | the four-edge case in closed form, its total, and truncation of only the later edges |
| Canvas.RatioOf | borders/borders.js:2-10 | the seven named ratios, all with positive sides |
| Canvas.Oriented | borders/borders.js:292-298 | width and height of the ratio trade places when the orientation is flipped |
| Canvas.FitToWindow | borders/borders.js:300-310 | the unstretched fit of a ratio into 80% of the window, shared by both sketches (also circles/circles.js:241-251); it spans the 80% box, floored, in at least one direction |
| Canvas.FitBox | borders/borders.js:304-310 | the comparison of how many ratio units fit across and down, then the box side along the tighter direction and the ratio's share of it across, each floored; one side is the floored box side |
| Canvas.FitBoxBounds | borders/borders.js:300-310 | the fitted size is the ratio scaled by min(box width/ratio width, box height/ratio height), each side floored; it lies inside the box and reaches it on one side |
| Canvas.FitCase | borders/borders.js:304-310 | each branch of the comparison spans the box along the tighter direction and gives the other side the ratio's share |
| Canvas.FitWithinBox | circles/circles.js:232-256 | for every named ratio, either way round, the canvas is within 80% of the window in both directions and touches the 80% box on one side |
| Canvas.FlipTransposes | circles/circles.js:237-239 | flipping the orientation equals fitting the unflipped ratio into the transposed window and transposing the result |
| Canvas.FlipInSquareWindow | circles/circles.js:237-239 | in a square window, flipping the orientation swaps the canvas's width and height |
| Animation.Tick | borders/borders.js:331-342 | after more than 100 ms since the last accepted frame, the offset grows by the sketch's speed, the frame time is recorded and a repaint is requested; otherwise nothing changes |
| Animation.Run | borders/borders.js:331-345 | a sequence of frame callbacks applied in order; the offset and the reference time never decrease, and a pending repaint request stays pending |
| Animation.Accepted | borders/borders.js:332 | the callbacks that pass the throttle, in order; there are no more of them than callbacks, and the first is more than 100 ms after the reference time |
| Animation.RunAdvancesPerAcceptedFrame | borders/borders.js:331-345 | over any run of callbacks, the offset grows by the speed once per accepted frame, the last accepted frame is the reference time, and any accepted frame requests a repaint |
| Animation.AcceptedFramesAreSpaced | circles/circles.js:269-283 | consecutive accepted frames, and the first one after the reference time, are more than 100 ms apart |
| Animation.AcceptedAreFrames | circles/circles.js:269-283 | every accepted frame is one of the callbacks |
| Borders.Step | borders/borders.js:416 | the buffer step is positive whenever element size plus spacing is |
| Borders.Inset | borders/borders.js:409-411 | `borderPos` at buffer scale: the border width plus the layer number times size and spacing, all doubled; that layer L sits L buffer steps inside layer 0 is stated by Borders.InsetsAreEvenlySpaced |
| Borders.Budget | borders/borders.js:414-417 | `elementCount`: the ceiling of the buffer perimeter over the buffer step, that is, the fewest steps that cover the perimeter; that it does not depend on the scale is stated by Borders.BudgetScaleFree |
| Borders.FullCount | borders/borders.js:425-431 | an edge's `Math.ceil(usable length / step)`: zero when the usable length is not positive, otherwise the fewest steps that cover it |
| Borders.ElementAt | borders/borders.js:433-457 | the coordinates of an edge's i-th element as the four loops compute them; it belongs to its edge and has the buffer element size |
| Borders.LayerElements | borders/borders.js:409-460 | one layer's placements: the top, right, bottom and left runs cut to their budget quotas; never more than the budget |
| Borders.BorderElements | borders/borders.js:400-462 | the placements of the first `layers` layers, outermost first; its size is stated by Borders.BorderSizeWithinBudget and how the draw loop builds it by Borders.DrawBorderToBuffer |
| Borders.Offset | borders/borders.js:422 | the scroll offset lies in [0, step) and is 0 when scrolling is off |
| Borders.EdgeRunExtend | borders/borders.js:431-436 | one more pass of an edge loop appends the next element |
| Borders.DrawBorderToBuffer | borders/borders.js:400-462 | the loops over layers and edges emit exactly the specified layer placements, layer after layer |
| Borders.DrawLayerToBuffer | borders/borders.js:409-460 | one layer's four edge loops emit the top, right, bottom and left runs of their budget quotas |
| Borders.EdgeLoop | borders/borders.js:431-436 | an edge loop with its budget break places min(edge count, budget left) elements, the i-th at the edge's i-th position, and advances the counter by as many |
| Borders.InsetsAreEvenlySpaced | borders/borders.js:408-411 | layer L is inset 2·borderWidth + L·step, so consecutive layers are one buffer step apart |
| Borders.BudgetScaleFree | borders/borders.js:414-417 | the budget at buffer scale equals ceil(2(W+H)/(size+spacing)) |
| Borders.LayerSizeWithinBudget | borders/borders.js:417-460 | a layer places min(budget, sum of the four edge counts) elements, never more than the budget |
| Borders.BorderSizeWithinBudget | borders/borders.js:408-461 | a border of L layers has at most L budgets of placements |
| Borders.OnlyLaterEdgesTruncated | borders/borders.js:432-459 | if an edge is cut short by the budget, every edge visited after it is empty |
| Borders.ShortEdgeIsEmpty | borders/borders.js:425-431 | an edge whose length less both insets is not positive gets no element |
| Borders.BudgetBindsOnlyThinBorders | borders/borders.js:414-460 | when the inset is at least half a step, no edge is truncated by the budget |
| Borders.EdgeShareFits | borders/borders.js:425-428 | with such an inset, an edge's elements span no more than the edge |
| Borders.LayerElementIndex | borders/borders.js:430-460 | the k-th placement of a layer is the matching element of the top, right, bottom or left run, by the quotas |
| Borders.EdgesInTraversalOrder | borders/borders.js:430-460 | a layer lists its placements edge by edge in the order top, right, bottom, left |
| Borders.ElementOnEdge | borders/borders.js:433-458 | an edge's i-th element lies on the edge's inset line with the edge's size; top and right walk forward, bottom and left back from the far corner, within the usable run shifted by the offset |
| Borders.PlacementsOnTheirEdge | borders/borders.js:430-460 | every placement of a layer lies on its edge |
| Borders.WidescreenExample | borders/borders.js:400-462 | an 800×450 canvas with width 30, size 20 and spacing 20 has a budget of 63 and edge counts 19, 10, 19 and 10, so 58 placements |
| Borders.ThinBorderExample | borders/borders.js:417-460 | on a 100×100 canvas with width 5, size 120 and spacing 100, each edge asks for one element but the budget of 2 leaves bottom and left empty |
| Borders.Letterbox | borders/borders.js:832-844 | the drawn box keeps the image's aspect, fills the square on one side, is positive and no larger than the square, and is centred on the origin |
| Borders.DrawElement | borders/borders.js:464-530 | an element is drawn at its placement with its edge's rotation and the chosen style; the raster styles carry a letterboxed image tinted with the foreground and draw nothing without their image |
| Borders.Render | borders/borders.js:464-530 | the motifs a sequence of placements paints, in order, dropping the placements that paint nothing; never more motifs than placements |
| Borders.RenderPaintsEveryPlacement | borders/borders.js:829-881 | each placement paints its motif in order, unless a raster style lacks its image, in which case the border is blank |
| Borders.BordersCanvas | borders/borders.js:291-318 | the width is the 80% fit's width; the height is the fit's height times 1.2, floored; so width ≤ 80% and height ≤ 96% of the window |
| Borders.Sketch.constructor | borders/borders.js:84-89 | setup sizes the canvas by the stretched fit, starts the tick at rest with a repaint requested, and has no raster image loaded |
| Borders.Sketch.UpdateCanvasDimensions | borders/borders.js:291-318 | the canvas size becomes the stretched fit for the chosen ratio and orientation |
| Borders.Sketch.WindowResized | borders/borders.js:899-906 | a resize, like the aspect-ratio and flip controls (borders/borders.js:113-131), refits the canvas, and its synchronous redraw repaints the whole border at the new size and clears the request |
| Borders.Sketch.ControlChanged | borders/borders.js:134-221 | a change of width, style, size, spacing, layers, colour or invert repaints the border with the new setting at once and clears the request; the three animate toggles are Borders.Sketch.RequestRedraw |
| Borders.Sketch.RequestRedraw | borders/borders.js:155-199 | an animate toggle only requests a repaint; it calls `loop()` or `noLoop()` instead of `redraw()` |
| Borders.Sketch.AnimationLoop | borders/borders.js:331-345 | one frame callback performs the throttled tick with a speed of 3; an accepted frame repaints at the new offset before returning and clears the request; otherwise nothing changes and nothing is painted |
| Borders.Sketch.ToggleAnimation | borders/borders.js:320-329 | switching Scroll on paints nothing; switching it off paints only if draw's gate is open without it, that is, with an oscillation running or a repaint pending |
| Borders.Sketch.ToggleAnimationRepainting | borders/borders.js:320-329 | corrected: switching Scroll off repaints at once, and every layer of that repaint is the one at scroll offset 0 |
| Borders.RestingLayerIgnoresScroll | borders/borders.js:422 | with scrolling off, a layer's placements are the same for every scroll offset |
| Borders.ScrollOffLeavesScrolledFrame | borders/borders.js:320-329 | after an accepted tick has repainted, switching Scroll off with no oscillation running paints nothing, although the scrolled outermost layer on screen differs from the one at rest whenever the offset is not 0 |
| Borders.Sketch.Draw | borders/borders.js:347-398 | a frame repaints exactly when an oscillation runs, a repaint was requested or scrolling is on; a repaint uses the invert-colour palette, the specified placements and their motifs, and clears the request; otherwise nothing changes |
| Circles.Step | circles/circles.js:331 | the step is positive whenever element size plus spacing is |
| Circles.Offset | circles/circles.js:337 | the scroll offset lies in [0, step) and is 0 when scrolling is off |
| Circles.Inset | circles/circles.js:325-326 | `borderPos`: the border width plus the layer number times the step; consecutive layers one step apart is stated by Circles.InsetsAreEvenlySpaced |
| Circles.Budget | circles/circles.js:332 | `elementCount`: the ceiling of the perimeter over the step, the fewest steps that cover it |
| Circles.Start | circles/circles.js:340-366 | the first coordinate of each walk: the inset shifted back by the offset for top and right, the far side less the inset shifted forward by it for bottom and left; so it lies within one step of the inset line |
| Circles.Limit | circles/circles.js:340-366 | the bound each walk may reach: the top walk stops at the right edge's line, the right walk at the bottom's, the bottom walk at the left's and the left walk at the top's |
| Circles.RunLength | circles/circles.js:340 | how many coordinates of an inclusive walk stay at or below its bound: none when the walk starts past it, otherwise the last counted coordinate is at or below the bound and the next one past it |
| Circles.PlaceAt | circles/circles.js:343-367 | the placement a walk makes at a coordinate: along the top and bottom the coordinate is x, along the sides y, on the edge's inset line, with the element size |
| Circles.LayerElements | circles/circles.js:323-369 | one layer's placements: the four walks cut to their budget quotas; never more than the budget |
| Circles.BorderElements | circles/circles.js:318-371 | the placements of the first `layers` layers, outermost first; how the draw loop builds it is stated by Circles.DrawBorder |
| Circles.RunLengthIndices | circles/circles.js:340 | an inclusive walk from lo by step up to hi visits exactly the k with lo + k·step ≤ hi |
| Circles.FullCountIndices | circles/circles.js:340-369 | each edge walk visits exactly the indices whose coordinate is still inside its bound |
| Circles.EdgeRunExtend | circles/circles.js:340-345 | one more step of an edge walk appends the next element |
| Circles.DrawBorder | circles/circles.js:318-371 | the loops over layers and edges emit exactly the specified layer placements, layer after layer |
| Circles.DrawLayer | circles/circles.js:323-369 | one layer's four edge walks emit the top, right, bottom and left runs of their budget quotas |
| Circles.EdgeWalk | circles/circles.js:340-369 | an edge walk with its budget break places min(walk length, budget left) elements, the k-th at the walk's k-th coordinate, and advances the counter by as many |
| Circles.InsetsAreEvenlySpaced | circles/circles.js:325-326 | consecutive layers are one step apart |
| Circles.LayerSizeWithinBudget | circles/circles.js:332-369 | a layer places min(budget, sum of the four walk lengths) elements, never more than the budget |
| Circles.OnlyLaterEdgesTruncated | circles/circles.js:341-365 | if an edge is cut short by the budget, every edge visited after it is empty |
| Circles.LayerElementIndex | circles/circles.js:340-369 | the k-th placement of a layer is the matching element of the top, right, bottom or left walk, by the quotas |
| Circles.EdgesInTraversalOrder | circles/circles.js:339-369 | a layer lists its placements edge by edge in the order top, right, bottom, left |
| Circles.ElementOnEdge | circles/circles.js:340-369 | a walk's element lies on the edge's inset line; top and right never pass the far inset, bottom and left never pass the near one |
| Circles.PlacementsOnTheirEdge | circles/circles.js:340-369 | every placement of a layer lies on its edge |
| Circles.InclusiveWalkVersusCeiling | circles/circles.js:340 | an inclusive walk over a run visits one coordinate more than the ceiling count exactly when the step divides the run |
| Circles.TopWalkVersusCeiling | circles/circles.js:340-345 | without scrolling, the top walk places the ceiling count plus one when the usable length is a whole number of steps |
| Circles.DrawElement | circles/circles.js:373-427 | an element is drawn at its placement, with its edge's quarter turns, the oscillation exactly when scrolling, and the chosen style |
| Circles.Sketch.constructor | circles/circles.js:67-72 | setup sizes the canvas by the 80% fit and starts the tick at rest with a repaint requested |
| Circles.Sketch.UpdateCanvasDimensions | circles/circles.js:232-256 | the canvas size becomes the fit for the chosen ratio and orientation, within 80% of the window each way |
| Circles.Sketch.WindowResized | circles/circles.js:573-580 | a resize, like the aspect-ratio and flip controls (circles/circles.js:87-105), refits the canvas, and its synchronous redraw repaints the whole border at the new size and clears the request |
| Circles.Sketch.ControlChanged | circles/circles.js:108-163 | a change of width, style, size, spacing, layers, colour or invert repaints the border with the new setting at once and clears the request |
| Circles.Sketch.AnimationLoop | circles/circles.js:269-283 | one frame callback performs the throttled tick with a speed of 1; an accepted frame repaints at the new offset before returning and clears the request; otherwise nothing changes and nothing is painted |
| Circles.Sketch.ToggleAnimation | circles/circles.js:258-267 | switching Animate on paints nothing; switching it off paints only if a repaint was already pending |
| Circles.Sketch.ToggleAnimationRepainting | circles/circles.js:258-267 | corrected: switching Animate off repaints at once, and every layer of that repaint is the one at scroll offset 0 |
| Circles.RestingLayerIgnoresScroll | circles/circles.js:337 | with scrolling off, a layer's placements, including how many each walk makes, are the same for every scroll offset |
| Circles.ScrollOffLeavesScrolledFrame | circles/circles.js:258-267 | after an accepted tick has repainted, switching Animate off paints nothing, although the first element of the scrolled outermost layer on screen sits elsewhere than at rest whenever the offset is not 0 |
| Circles.Sketch.Draw | circles/circles.js:285-300 | a frame repaints exactly when a repaint was requested or scrolling is on; a repaint uses the invert-colour palette and draws one motif per specified placement, in order, then clears the request; otherwise nothing changes |
| SymmetryGrid.Blank | script.js:39-41 | an n×n grid with every cell off |
| SymmetryGrid.Set | script.js:102 | writing one cell changes that cell and no other |
| SymmetryGrid.Paint | script.js:101-134 | writing a set of cells changes exactly those inside the grid |
| SymmetryGrid.PaintExtend | script.js:106-133 | writing one more cell after a painted set is painting the set with that cell added |
| SymmetryGrid.Targets | script.js:101-134 | the cells one pen or eraser stroke writes, block by block; always the clicked cell, and only cells in its row and column mirror orbit |
| SymmetryGrid.TargetsMembers | script.js:101-134 | a stroke writes the cell, its row mirror (H), its column mirror (V) and its point reflection (D), and no other cell; the H-and-V block adds nothing |
| SymmetryGrid.TargetsInGrid | script.js:101-134 | a stroke inside the grid writes only cells inside the grid |
| SymmetryGrid.StrokeWritesTargets | script.js:101-134 | the cells setCell writes, block by block in its order, make up the stroke's targets |
| SymmetryGrid.PaintKeepsSymmetry | script.js:101-134 | painting a set closed under a reflection keeps a grid symmetric under that reflection |
| SymmetryGrid.TargetsClosed | script.js:106-123 | a stroke's cells are closed under each reflection whose flag is on with the other two flags equal |
| SymmetryGrid.FlagsKeepTheirSymmetry | script.js:106-123 | each single flag keeps its own symmetry, and all three flags keep all three |
| SymmetryGrid.BlankSymmetric | script.js:39-41 | the blank grid of start-up, clearing and resizing is symmetric under every reflection, so the property above holds of every grid reachable from them |
| SymmetryGrid.CornerLeftAlone | script.js:126-133 | with H and V on and D off, a stroke off the centre lines leaves the opposite corner unchanged and its cells are closed under no reflection |
| SymmetryGrid.TwoByTwoStroke | script.js:126-133 | on the blank 2×2 grid, such a stroke at a corner lights three cells and breaks all three symmetries |
| SymmetryGrid.Neighbours | script.js:156-159 | the fill visits x+1, x-1, y+1, y-1, in that order |
| SymmetryGrid.Reachable | script.js:149-160 | two cells joined by a 4-connected walk through in-grid cells of one value; that every cell reaches itself is stated by SymmetryGrid.ReachableSelf |
| SymmetryGrid.Component | script.js:149-160 | the in-grid cells reachable from the start through cells of its value; it holds the start |
| SymmetryGrid.Flooded | script.js:145-163 | the intended effect of a fill: the grid unchanged if the start already has the new state, else the start's component set to it; no cell already in the new state changes |
| SymmetryGrid.FillIsFlood | script.js:149-162 | a completed fill from a cell of the old state flips exactly the cells 4-connected to it through cells of the old state |
| SymmetryGrid.FloodFlipsStart | script.js:145-162 | the fill always leaves the clicked cell with the new state |
| SymmetryGrid.WalkIsChanged | script.js:149-160 | every cell on a walk of old-state cells from the start is flipped by a completed fill |
| SymmetryGrid.FlipShrinksCurCells | script.js:151-153 | each visit flips one old-state cell, so the set of old-state cells shrinks and the recursion terminates |
| SymmetryGrid.ShrinksCurCells | script.js:149-160 | a fill never creates old-state cells |
| SymmetryGrid.PartialStep | script.js:156-159 | after each recursive call, the cells changed so far are settled and reachable from the start |
| SymmetryGrid.PartialDone | script.js:149-160 | after the four recursive calls, one visit has done its whole job |
| SymmetryGrid.GridEditor.constructor | script.js:32-36 | start-up has a 10×10 blank grid and the pen selected |
| SymmetryGrid.GridEditor.InitializeGridState | script.js:39-41 | the grid becomes a blank grid of the current size |
| SymmetryGrid.GridEditor.Clear | script.js:224-228 | clearing blanks the grid and keeps its size |
| SymmetryGrid.GridEditor.SetGridSize | script.js:198-203 | the size slider sets the size and blanks the grid at that size |
| SymmetryGrid.GridEditor.SetActiveTool | script.js:230-231 | the selected tool becomes the current one |
| SymmetryGrid.GridEditor.SetCell | script.js:101-134 | the grid becomes the old grid with exactly the stroke's targets written |
| SymmetryGrid.GridEditor.PaintIf | script.js:106-110 | one guarded mirror block writes its cell exactly when its flag is on |
| SymmetryGrid.GridEditor.FillFrom | script.js:149-160 | out of the grid, or at a cell not of the old state, nothing changes; otherwise only old-state cells change, the start is flipped, and every changed cell is settled and reachable from the start |
| SymmetryGrid.GridEditor.FillGrid | script.js:145-163 | the grid becomes the old grid flooded from the clicked cell; nothing changes if the cell already has the new state |
| SymmetryGrid.GridEditor.HandleCellClick | script.js:68-82 | the pen writes on, the eraser writes off, both through the mirrors; the fill floods with the negation of the clicked cell |
| SymmetryGrid.GridEditor.HandleCellHover | script.js:85-98 | with the left button held, the pen and eraser stroke as on a click; otherwise, or with the fill tool, nothing changes |

## Left out

- Drawing: the motif shapes, `push`/`pop`/`translate`/`rotate`, tint and the 2× graphics buffer are p5.js calls. A motif is recorded as a placement, a rotation, a style tag and, for raster styles, the letterboxed box and tint.
- The lil-gui panel, themes, controller styles, the storage listener, `repositionCanvas`, export and the grid editor's DOM code (`createGridCells`, `updateCellDisplay`, `updateGridCellColors`, `updatePreview`, `updatePreviewAspectRatio`, alert stubs): user interface and I/O. Only the canvas refit and the repaint of the control callbacks are modelled, as `WindowResized`, `ControlChanged`, `RequestRedraw` and `ToggleAnimation`; the new setting is the `Params` value handed to them.
- `randomizeParameters` and `generateDistortion`: they depend on randomness, and the distortion map is never read by the engines. Parameters are inputs to the model.
- The sine-driven size, spacing and layer animation of the buffer sketch's `draw` (borders/borders.js:348-378): it depends on `millis()` and floating-point `Math.sin`. The model reads the parameters as given and only records that such animation forces a repaint.
- `animationTime` and the oscillation angle: floating point. The model records only that a motif oscillates. The `requestAnimationFrame`/`cancelAnimationFrame` calls of `animationLoop` and `toggleAnimation` are scheduling: frame times are a parameter of `AnimationLoop`. The repaint `toggleAnimation` triggers is `Sketch.ToggleAnimation`.
- Fractional spacing: the element-spacing slider of the buffer sketch (borders/borders.js:167) has no step, so the browser may hand it non-integer values. The model takes integer sizes and spacings.
- IEEE-754 rounding of `0.8`, `1.2` and the divisions: the fit and the letterbox are computed over exact reals.
- Loading of the raster images: nothing in borders.js loads `vintagePNG` or `shape13PNG`. The sketch state holds them as optional images, initially absent, so that the raster branches are modelled either way.
- The aspect-ratio selector, border-width slider and colour picker of `script.js` only update the preview DOM: left out as UI.
- Borders.Sketch.WindowResized, Circles.Sketch.WindowResized: `resizeCanvas` makes a redraw of its own before the request is set. That earlier frame is not modelled: the method returns the last frame, the one on screen when the callback ends.
- Borders.Sketch.RequestRedraw: the frames of p5's draw loop that `loop()` starts are left to separate `Draw` calls.
- Borders.DrawElement: the oscillation angle itself is not modelled, only whether it is applied.
- Circles.Sketch.constructor, Borders.Sketch.constructor: the canvas element, its position and pixel density are not modelled.
- SymmetryGrid.GridEditor.FillFrom: JavaScript's recursion depth limit is not modelled. A fill of a large component could overflow the call stack in the browser, while the model always completes.
- SymmetryGrid.GridEditor: the grid is kept as a `seq<seq<bool>>` field that each write reassigns, not as nested mutable arrays. Aliasing between rows, which the source never creates, is therefore not modelled.
- SymmetryGrid.Targets: the checkbox names suggest full mirror symmetry, but the model follows `script.js` as written. The "diagonal" flag is a point reflection through the centre. With horizontal and vertical on and diagonal off, the opposite corner is not written (`SymmetryGrid.CornerLeftAlone`).

## Findings

| source | as written | input that shows it | evidently intended | confidence | as-written member | corrected member |
|---|---|---|---|---|---|---|
| borders/borders.js:320-329 | switching Scroll off cancels the loop and calls `redraw()` without setting `needsRedraw`; the accepted tick's own redraw has already cleared it, so with no size, spacing or layer animation running draw paints nothing | Scroll on with size 20 and spacing 20 (buffer step 80), one accepted tick (scroll offset 3), then Scroll off: the canvas keeps the border shifted by 3 buffer pixels until some other control repaints it at rest | the border is repainted at rest when scrolling stops, as the `redraw()` call suggests | medium, not executed | Borders.ScrollOffLeavesScrolledFrame | Borders.Sketch.ToggleAnimationRepainting |
| circles/circles.js:258-267 | the same: `redraw()` without `needsRedraw = true`, and draw's gate is `needsRedraw \|\| params.animate` | Animate on with size 10 and spacing 10, one accepted tick (scroll offset 1), then Animate off: the border stays shifted by one pixel | the border is repainted at rest when scrolling stops | medium, not executed | Circles.ScrollOffLeavesScrolledFrame | Circles.Sketch.ToggleAnimationRepainting |
