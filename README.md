# gdx-25 water, clipping and game-loop core in Dafny

This project models the game logic of gdx-25, a libGDX game. A boat floats on a wave-driven
water surface, AI characters spawn and run on it, and a sea monster eats the boat. The model
covers the following parts.

- The 1-D spring-mesh water surface (`Spring`, `WaterSimulation`):
  - every spring is settled towards the base water level;
  - then neighbour deltas are propagated in two phases over the spring list, a set number of
    times per tick;
  - touches and emitted waves inject speed into single springs.
- The Sutherland–Hodgman clipper of `Utils.getIntersection` with its half-plane test and line
  intersection, and `getPolygon`.
- The `Range` value type: validating builders, containment, percentages and guarded mutators.
- The water mesh buffer layout of `WaterRenderer`: the index pattern and the vertex slots.
- The wave emitter and the character spawner timers.
- The fixed-timestep accumulator and the debug-key and touch handling of `CoreGame`.
- The boat's upside-down latch and eaten/frozen motion.
- The monster's eat/animation cycle.
- The AI move controllers and the player's key-to-move mapping and impulse.
- The contact routing of both `WorldContactListener` classes.
- The sprite-frame tables of `Action` and `CharacterResources`.
- The digit layout of `NumericRenderer.renderTimer`.

Java `float` is modelled as `real`. Every `MathUtils.random` draw is a caller-supplied value:
a unit value in [0, 1) for float draws, an offset for integer draws. `Gdx.graphics.getDeltaTime()`
and Box2D queries are parameters too.

Code that updates fields in place is a `class` whose methods state the new state. Each such
method is tied to a specification function (`Settle`, `Pass`, `GameTick`, `ClipFrom`,
`StalkerStep`, `LatchStep`, `Render`, `ClockLayout`, …), and the lemmas beside it state what
the source promises about that function.

Modules:
- `Springs`, `Water` and `WaterLaws`: the water surface.
- `Clipping`: the clipper.
- `Ranges`: the `Range` type.
- `WaterRendering`: the water mesh buffers.
- `Timers`: the wave emitter and the character spawner.
- `Game`: `CoreGame`.
- `Boats`, `Monsters`, `Characters` and `AiControllers`: the actors.
- `PhysicsContacts` and `WorldContacts`: the two contact listeners.
- `Actions` and `CharacterResourcesModel`: the sprite-frame tables.
- `NumericRendering`: the timer display.
- Shared: `Constants` (values of `Constants.java`), `Randomness` (the draws), `JavaMath` (Java's
  `%` and `(int)` casts on floats), `Box2D` (fixtures and contacts as values) and `Wrappers`
  (`Option`, `Result`).

All source paths below are under `core/src/fr/baldurcrew/gdx25/`.

## Model

| member | source | states |
|---|---|---|
| Springs.Spring.constructor | core/src/fr/baldurcrew/gdx25/water/Spring.java:6-13 | A new spring has the given `x` and height, and velocity 0 (the field default); `x` is a constant. |
| Springs.Spring.Update | core/src/fr/baldurcrew/gdx25/water/Spring.java:15-22 | The new state is one `Settle` step: the velocity is updated first, then the height moves by the new velocity. |
| Springs.Spring.AddVelocity | core/src/fr/baldurcrew/gdx25/water/Spring.java:24-27 | Exactly `d` is added to the velocity; the height is unchanged. |
| Springs.Spring.AddHeight | core/src/fr/baldurcrew/gdx25/water/Spring.java:29-31 | Exactly `d` is added to the height; the velocity is unchanged. |
| Springs.SettleAtRest | core/src/fr/baldurcrew/gdx25/water/Spring.java:15-22 | A spring at the base level with zero velocity is a fixed point of `update`, whatever the stiffness and dampening. |
| Springs.SettleWithoutForces | core/src/fr/baldurcrew/gdx25/water/Spring.java:15-22 | With zero stiffness and dampening the velocity is kept and the height moves by exactly the velocity. |
| Springs.SettleTimesAtRest | core/src/fr/baldurcrew/gdx25/water/Spring.java:15-22 | Any number of updates leaves a spring at rest at rest. |
| Springs.SettleTimesWithoutForces | core/src/fr/baldurcrew/gdx25/water/Spring.java:15-22 | Without forces, `n` updates move the height by `n` times the velocity. |
| Water.WaterSimulation.constructor | core/src/fr/baldurcrew/gdx25/water/WaterSimulation.java:31-50 | `springsCount` distinct springs, spring `i` at `fromX + i*(toX-fromX)/(count-1)`, all at the base level 5 with zero velocity. |
| Water.SpringPlacement | core/src/fr/baldurcrew/gdx25/water/WaterSimulation.java:36-41 | The first spring sits at `fromX`, the last at `toX`, and the springs are strictly increasing in x when `fromX < toX`. |
| Water.WaterSimulation.Update | core/src/fr/baldurcrew/gdx25/water/WaterSimulation.java:113-142 | The new surface is `GameTick` of the old one: every spring settled, then the configured number of propagation passes. |
| Water.WaterSimulation.SettleSprings | core/src/fr/baldurcrew/gdx25/water/WaterSimulation.java:114-116 | Each spring is settled with the stiffness 0.025, dampening 0.025 and base level 5; the count is unchanged. |
| Water.WaterSimulation.PropagateWaves | core/src/fr/baldurcrew/gdx25/water/WaterSimulation.java:121-141 | The surface after the loop is `Passes` of the surface before it, for the pass count of the float bound 4. |
| Water.WaterSimulation.Propagate | core/src/fr/baldurcrew/gdx25/water/WaterSimulation.java:122-140 | One two-phase pass over the springs yields exactly `Pass` of the surface at its start. |
| Water.WaterSimulation.VelocityPhase | core/src/fr/baldurcrew/gdx25/water/WaterSimulation.java:122-134 | Phase 1 changes only velocities: spring `k` gains the deltas its neighbours computed from the start-of-pass heights; the delta arrays hold those deltas. |
| Water.WaterSimulation.SpreadVelocity | core/src/fr/baldurcrew/gdx25/water/WaterSimulation.java:124-133 | Index `i` of phase 1 adds `leftDeltas[i]` to spring `i-1` and `rightDeltas[i]` to spring `i+1`, only where those neighbours exist. |
| Water.WaterSimulation.HeightPhase | core/src/fr/baldurcrew/gdx25/water/WaterSimulation.java:136-140 | Phase 2 changes only heights and adds to each spring exactly the deltas phase 1 added to its velocity. |
| Water.WaterSimulation.SpreadHeight | core/src/fr/baldurcrew/gdx25/water/WaterSimulation.java:137-139 | Index `i` of phase 2 adds the stored deltas to the heights of the existing neighbours, with no out-of-bounds access. |
| Water.WaterSimulation.DisturbWater | core/src/fr/baldurcrew/gdx25/water/WaterSimulation.java:144-148 | The new surface is `Disturb` of the old one: speed added to one spring when the index is in range, nothing otherwise. |
| Water.WaterSimulation.HandleInput | core/src/fr/baldurcrew/gdx25/water/WaterSimulation.java:204-209 | A touch between `fromX` and `toX` disturbs spring `round(size*(x-fromX)/(toX-fromX))` with speed 5; any other touch changes nothing. |
| Water.WaterSimulation.Heights | core/src/fr/baldurcrew/gdx25/water/WaterSimulation.java:113-148 | There is one height per spring. |
| Water.WaterSimulation.Velocities | core/src/fr/baldurcrew/gdx25/water/WaterSimulation.java:113-148 | There is one velocity per spring. |
| Water.WaterSimulation.State | core/src/fr/baldurcrew/gdx25/water/WaterSimulation.java:113-148 | The surface of the springs is well formed and as long as the spring list. |
| Water.Plus | core/src/fr/baldurcrew/gdx25/water/WaterSimulation.java:136-140 | Adding a list of deltas keeps the length. |
| Water.SettleAll | core/src/fr/baldurcrew/gdx25/water/WaterSimulation.java:114-116 | Settling keeps the number of springs. |
| Water.LeftDeltas | core/src/fr/baldurcrew/gdx25/water/WaterSimulation.java:124-128 | There is one left delta per spring. |
| Water.RightDeltas | core/src/fr/baldurcrew/gdx25/water/WaterSimulation.java:129-133 | There is one right delta per spring. |
| Water.PassDeltas | core/src/fr/baldurcrew/gdx25/water/WaterSimulation.java:122-140 | Each spring receives exactly one net delta from its neighbours. |
| Water.InflowStep | core/src/fr/baldurcrew/gdx25/water/WaterSimulation.java:123-134 | Index `i` adds its left delta only to spring `i-1` and its right delta only to spring `i+1`. |
| Water.Pass | core/src/fr/baldurcrew/gdx25/water/WaterSimulation.java:122-140 | A pass keeps the number of springs. |
| Water.Passes | core/src/fr/baldurcrew/gdx25/water/WaterSimulation.java:121 | Repeated passes keep the number of springs. |
| Water.PassesStep | core/src/fr/baldurcrew/gdx25/water/WaterSimulation.java:121 | One more pass after `j` passes is pass `j+1` of the loop. |
| Water.PassCountBound | core/src/fr/baldurcrew/gdx25/water/WaterSimulation.java:121 | The loop runs once for each integer `j` with `j < wavesPropagationPasses`, compared as floats. |
| Water.Tick | core/src/fr/baldurcrew/gdx25/water/WaterSimulation.java:113-142 | An update with given tunables keeps the number of springs. |
| Water.Disturb | core/src/fr/baldurcrew/gdx25/water/WaterSimulation.java:144-148 | A disturbance keeps the number of springs. |
| Water.GameTick | core/src/fr/baldurcrew/gdx25/water/WaterSimulation.java:23-27 | An update with the game's tunables keeps the number of springs. |
| Water.GameTickSteps | core/src/fr/baldurcrew/gdx25/water/WaterSimulation.java:113-142 | Settling, then running the configured passes, is exactly one game tick. |
| WaterLaws.Rest | core/src/fr/baldurcrew/gdx25/water/WaterSimulation.java:36-41 | The surface of a new simulation, flat at level 5 and still, has the requested number of springs. |
| WaterLaws.DeltasOfPrefixAgree | core/src/fr/baldurcrew/gdx25/water/WaterSimulation.java:124-133 | Appending a spring changes no delta except those of its new neighbour. |
| WaterLaws.DeltasOfPrefixLast | core/src/fr/baldurcrew/gdx25/water/WaterSimulation.java:124-133 | The appended spring and its neighbour exchange opposite deltas. |
| WaterLaws.DeltasOfPrefix | core/src/fr/baldurcrew/gdx25/water/WaterSimulation.java:124-133 | The deltas of a surface one spring longer are those of the shorter surface plus the new opposite pair. |
| WaterLaws.DeltasSumToZero | core/src/fr/baldurcrew/gdx25/water/WaterSimulation.java:126-131 | The deltas of a pass sum to zero, because the delta `i` gives `i-1` is the negative of the one `i-1` gives `i`. |
| WaterLaws.PassConservesTotals | core/src/fr/baldurcrew/gdx25/water/WaterSimulation.java:122-140 | One propagation pass conserves the total height and the total velocity. |
| WaterLaws.PassesConserveTotals | core/src/fr/baldurcrew/gdx25/water/WaterSimulation.java:121-141 | Any number of passes conserves both totals. |
| WaterLaws.FlatPassIsIdentity | core/src/fr/baldurcrew/gdx25/water/WaterSimulation.java:122-140 | A flat surface is unchanged by a pass. |
| WaterLaws.FixedPointPasses | core/src/fr/baldurcrew/gdx25/water/WaterSimulation.java:121 | A surface a pass leaves unchanged is unchanged by any number of passes. |
| WaterLaws.RestPasses | core/src/fr/baldurcrew/gdx25/water/WaterSimulation.java:121-141 | Propagation leaves the rest surface unchanged. |
| WaterLaws.SettleAllKeepsRest | core/src/fr/baldurcrew/gdx25/water/WaterSimulation.java:114-116 | Settling leaves springs at the base level with zero velocity unchanged. |
| WaterLaws.RestIsFixedPoint | core/src/fr/baldurcrew/gdx25/water/WaterSimulation.java:113-142 | A whole update leaves calm water at level 5 unchanged. |
| WaterLaws.DisturbMomentum | core/src/fr/baldurcrew/gdx25/water/WaterSimulation.java:144-148 | A disturbance keeps all heights, changes no other spring, and adds `speed` to the total velocity exactly when the index is in range. |
| WaterLaws.TouchIndexRange | core/src/fr/baldurcrew/gdx25/water/WaterSimulation.java:204-209 | A touch is ignored exactly when it lies outside `[fromX, toX]`; otherwise its index lies in `0..size`. |
| WaterLaws.TouchAtRightEnd | core/src/fr/baldurcrew/gdx25/water/WaterSimulation.java:206-207 | A touch at `toX` maps to index `size`, one past the last spring. |
| WaterLaws.TouchAtRightEndIsIgnored | core/src/fr/baldurcrew/gdx25/water/WaterSimulation.java:204-209 | A touch at `toX` therefore disturbs nothing. |
| WaterLaws.RoundWhole | core/src/fr/baldurcrew/gdx25/water/WaterSimulation.java:206-207 | The rounding of a whole ratio `size` is `size`. |
| Clipping.DetIsSideChange | core/src/fr/baldurcrew/gdx25/utils/Utils.java:18-25 | The intersection's determinant is the change of the side test from `s` to `e`. |
| Clipping.CrossingIsDefined | core/src/fr/baldurcrew/gdx25/utils/Utils.java:66-76 | When `s` and `e` are on different sides of the clip line, the determinant is nonzero, so `intersection` never divides by zero where it is called. |
| Clipping.Inside | core/src/fr/baldurcrew/gdx25/utils/Utils.java:14-16 | Strictly left of the clip edge, so neither end of the edge is inside. |
| Clipping.IntersectionIsOnSegment | core/src/fr/baldurcrew/gdx25/utils/Utils.java:18-25 | The intersection is the point of the segment `s`–`e` at the crossing parameter. |
| Clipping.CrossAlongSegment | core/src/fr/baldurcrew/gdx25/utils/Utils.java:14-16 | The side test varies linearly along a segment. |
| Clipping.LerpOnOwnLine | core/src/fr/baldurcrew/gdx25/utils/Utils.java:18-25 | Every point of a segment is on its line. |
| Clipping.IntersectionOnBothLines | core/src/fr/baldurcrew/gdx25/utils/Utils.java:18-25 | With a nonzero determinant the intersection lies on the clip line and on the line through `s` and `e`. |
| Clipping.CrossingParameterInUnit | core/src/fr/baldurcrew/gdx25/utils/Utils.java:66-76 | When the side changes, the crossing lies between `s` and `e`. |
| Clipping.LerpKeepsHalfPlane | core/src/fr/baldurcrew/gdx25/utils/Utils.java:14-25 | A point between two points of a closed half-plane is in it. |
| Clipping.GetIntersection | core/src/fr/baldurcrew/gdx25/utils/Utils.java:29-83 | The list returned is `ClippedArea`: null for non-polygons or when the list is empty before an edge, else the list after all clip edges, the wrap-around edge first. |
| Clipping.ClipWithEdge | core/src/fr/baldurcrew/gdx25/utils/Utils.java:63-79 | The inner loop, with `s` starting at the last vertex, produces `ClipEdge` of the working list. |
| Clipping.EdgeStepFacts | core/src/fr/baldurcrew/gdx25/utils/Utils.java:66-78 | One vertex step emits at most two points, keeps `e` exactly when it is inside, and emits only points on or inside the clip line. |
| Clipping.InsideOnlyConcat | core/src/fr/baldurcrew/gdx25/utils/Utils.java:66-78 | Filtering the inside points distributes over concatenation. |
| Clipping.InsideOnlySingleton | core/src/fr/baldurcrew/gdx25/utils/Utils.java:14-16 | A single point is kept by the filter exactly when it is strictly inside. |
| Clipping.InsideOnlyAppend | core/src/fr/baldurcrew/gdx25/utils/Utils.java:66-78 | Lists with equal inside points stay equal in inside points when extended. |
| Clipping.ClipRunSize | core/src/fr/baldurcrew/gdx25/utils/Utils.java:64-78 | Clipping `k` vertices against one edge yields at most `2k` points. |
| Clipping.ClipRunKeepsInsideVertices | core/src/fr/baldurcrew/gdx25/utils/Utils.java:64-78 | The strictly inside points of the output are exactly the strictly inside input vertices, in input order. |
| Clipping.ClipRunOnOrInside | core/src/fr/baldurcrew/gdx25/utils/Utils.java:64-78 | Every output point lies on or inside the clip edge. |
| Clipping.ClipRunKeepsHalfPlane | core/src/fr/baldurcrew/gdx25/utils/Utils.java:64-78 | Clipping against a later edge keeps all points inside every earlier clip edge's closed half-plane. |
| Clipping.ClipFromInsideEdges | core/src/fr/baldurcrew/gdx25/utils/Utils.java:57-80 | Points already inside the earlier edges end, if a result is produced, inside every clip edge. |
| Clipping.ClippedAreaInsideClip | core/src/fr/baldurcrew/gdx25/utils/Utils.java:29-83 | Every point of a clipping result lies on or inside every clip edge, including the wrap-around edge. |
| Clipping.NonPolygonsGiveNothing | core/src/fr/baldurcrew/gdx25/utils/Utils.java:30-32 | When either fixture is not a polygon the result is null. |
| Clipping.EmptyListGivesNothing | core/src/fr/baldurcrew/gdx25/utils/Utils.java:60-82 | An empty working list before an edge gives null; after the last edge it gives an empty list. |
| Clipping.Flatten | core/src/fr/baldurcrew/gdx25/utils/Utils.java:85-92 | A list of `n` vertices flattens to `2n` coordinates. |
| Clipping.FlattenSlots | core/src/fr/baldurcrew/gdx25/utils/Utils.java:85-92 | Slot `2i` holds `x` of vertex `i` and slot `2i+1` its `y`. |
| Clipping.UnflattenFlatten | core/src/fr/baldurcrew/gdx25/utils/Utils.java:85-92 | Regrouping the flattened coordinates in pairs gives back the vertices. |
| Clipping.GetPolygon | core/src/fr/baldurcrew/gdx25/utils/Utils.java:85-92 | Fewer than three vertices are refused by the polygon; otherwise a new array holding exactly `Flatten` of the vertices. |
| Ranges.Range.constructor | core/src/fr/baldurcrew/gdx25/utils/Range.java:11-16 | Stores `from` and `to`, with `extent = to - from` and `halfExtent = extent / 2`. |
| Ranges.BuildRangeEx | core/src/fr/baldurcrew/gdx25/utils/Range.java:18-23 | Fails exactly when `to < from`; otherwise an ordered new range with the given ends. |
| Ranges.BuildRange | core/src/fr/baldurcrew/gdx25/utils/Range.java:25-30 | Never fails; a new range ending at `to` and starting at `BuildRangeStart`. |
| Ranges.BuildRangeStart | core/src/fr/baldurcrew/gdx25/utils/Range.java:25-30 | The start is `from` when ordered, and above `to` otherwise. |
| Ranges.BuildRangeStaysReversed | core/src/fr/baldurcrew/gdx25/utils/Range.java:25-30 | A reversed request gives a range still reversed, with `from = to + 0.1`. |
| Ranges.Range.Percentage | core/src/fr/baldurcrew/gdx25/utils/Range.java:41-43 | Undefined exactly when the extent is 0; otherwise `p` with `p * extent == point - from`. |
| Ranges.Range.ClampedPercentage | core/src/fr/baldurcrew/gdx25/utils/Range.java:49-51 | Always in `[0, 1]` when defined; undefined only for 0/0. |
| Ranges.Clamp01 | core/src/fr/baldurcrew/gdx25/utils/Range.java:49-51 | The clamp is in `[0, 1]`: 0 below, 1 above, the value itself inside. |
| Ranges.ClampedPercentageShape | core/src/fr/baldurcrew/gdx25/utils/Range.java:37-51 | With a positive extent: 0 at or before `from`, 1 at or after `to`, the plain percentage inside. |
| Ranges.QuotientBounds | core/src/fr/baldurcrew/gdx25/utils/Range.java:41-51 | The percentage quotient is at most 0, at least 1, or in between, as the point is before, after or inside the range. |
| Ranges.Range.Contains | core/src/fr/baldurcrew/gdx25/utils/Range.java:33-35 | Only an ordered range contains a point, and an ordered range contains both its ends. |
| Ranges.Range.GetCenter | core/src/fr/baldurcrew/gdx25/utils/Range.java:53-55 | While the extent is still `to - from`, the centre is the midpoint of the ends and lies in an ordered range. |
| Ranges.Range.GetRandom | core/src/fr/baldurcrew/gdx25/utils/Range.java:68-70 | A draw from an ordered range is contained in it and below `to` when the range is not a point. |
| Ranges.Range.BuildSubRange | core/src/fr/baldurcrew/gdx25/utils/Range.java:57-66 | Fails exactly when `extent < 0`, `fromOffset < 0` or `fromOffset + extent > to`; otherwise `[from+fromOffset, from+fromOffset+extent]`. |
| Ranges.SubRangeCheckLetsOverrunThrough | core/src/fr/baldurcrew/gdx25/utils/Range.java:57-66 | The check passes for `[1, 2]` with offset 0.5 and extent 1, yet the sub-range ends at 2.5, past `to`. |
| Ranges.Range.BuildSubRangeWithin | core/src/fr/baldurcrew/gdx25/utils/Range.java:57-66 | Compares against the extent instead: success gives a sub-range within `[from, to]`. |
| Ranges.Range.AddToEnd | core/src/fr/baldurcrew/gdx25/utils/Range.java:72-76 | Moves `to` by `v` only if it stays at or above `from`; ordering is preserved. |
| Ranges.Range.AddToStart | core/src/fr/baldurcrew/gdx25/utils/Range.java:78-82 | Moves `from` by `v` only if it stays at or below `to`; ordering is preserved. |
| Ranges.Range.ChangeEnd | core/src/fr/baldurcrew/gdx25/utils/Range.java:84-88 | Sets `to` only if it is at or above `from`; ordering is preserved. |
| Ranges.Range.ChangeStart | core/src/fr/baldurcrew/gdx25/utils/Range.java:90-94 | Sets `from` only if it is at or below `to`; ordering is preserved. |
| WaterRendering.ToShort | core/src/fr/baldurcrew/gdx25/water/WaterRenderer.java:52-59 | The `(short)` cast lands in the 16-bit range, is congruent modulo 65536, and keeps values already in range. |
| WaterRendering.VertexValues | core/src/fr/baldurcrew/gdx25/water/WaterRenderer.java:109-117 | A vertex has 7 values. |
| WaterRendering.RectangleValues | core/src/fr/baldurcrew/gdx25/water/WaterRenderer.java:91-104 | A rectangle has 28 values. |
| WaterRendering.RectangleCorners | core/src/fr/baldurcrew/gdx25/water/WaterRenderer.java:91-104 | The corners are (right,-1), (right,h_right), (left,h_left), (left,-1); the bottom ones have the bottom colour and the top ones the top colour. |
| WaterRendering.RectangleIndices | core/src/fr/baldurcrew/gdx25/water/WaterRenderer.java:52-59 | Six indices per rectangle. |
| WaterRendering.IndexPattern | core/src/fr/baldurcrew/gdx25/water/WaterRenderer.java:41-59 | The index array has `6*rectCount` entries. |
| WaterRendering.IndexPatternAt | core/src/fr/baldurcrew/gdx25/water/WaterRenderer.java:52-59 | Rectangle `i` gets `[4i, 4i+1, 4i+2, 4i+2, 4i+3, 4i]` at slots `6i..6i+6`. |
| WaterRendering.IndicesStayInTheirRectangle | core/src/fr/baldurcrew/gdx25/water/WaterRenderer.java:52-59 | While `4*rectCount` fits a short, every index is below `4*rectCount`, and both triangles of rectangle `i` use exactly its four vertices. |
| WaterRendering.SixCorners | core/src/fr/baldurcrew/gdx25/water/WaterRenderer.java:52-59 | The six-index pattern of a rectangle names exactly its four corners. |
| WaterRendering.IndicesWrapPastShortRange | core/src/fr/baldurcrew/gdx25/water/WaterRenderer.java:54 | At rectangle 8192 the first index wraps to -32768. |
| WaterRendering.CreateWaterMeshAndBuffers | core/src/fr/baldurcrew/gdx25/water/WaterRenderer.java:39-63 | New buffers: a vertex array of `4*rectCount*7` values and an index array equal to `IndexPattern`. |
| WaterRendering.WriteRectangleIndices | core/src/fr/baldurcrew/gdx25/water/WaterRenderer.java:53-58 | Writes the six indices of rectangle `i` and nothing else. |
| WaterRendering.FillVertexArray | core/src/fr/baldurcrew/gdx25/water/WaterRenderer.java:109-117 | Writes exactly the 7 slots `x, y, 0, r, g, b, a` at the offset and touches nothing else. |
| WaterRendering.FillRectangle | core/src/fr/baldurcrew/gdx25/water/WaterRenderer.java:92-104 | Writes the 28 values of one rectangle at its offset and nothing else. |
| WaterRendering.GenerateWaterMesh | core/src/fr/baldurcrew/gdx25/water/WaterRenderer.java:86-107 | Rectangle `r` between springs `r` and `r+1` occupies slots `28r..28r+28`; the array beyond the written rectangles is unchanged. |
| Timers.WaveEmitter.constructor | core/src/fr/baldurcrew/gdx25/water/WaveEmitter.java:16-24 | The timer starts at 0; the wait and amplitude are drawn from their ranges. |
| Timers.WaveEmitter.Update | core/src/fr/baldurcrew/gdx25/water/WaveEmitter.java:27-38 | When the incremented timer reaches the wait, spring 0 gets the amplitude and the timer, wait and amplitude are reset; otherwise only the timer grows by `TIME_STEP`. |
| Timers.WavePushesFirstSpring | core/src/fr/baldurcrew/gdx25/water/WaveEmitter.java:29-32 | A wave adds its amplitude to the velocity of spring 0 only. |
| Timers.QuietUntilWait | core/src/fr/baldurcrew/gdx25/water/WaveEmitter.java:27-38 | Without firing, `n` updates advance the timer by `n*TIME_STEP`, and no firing happens while that stays below the wait. |
| Timers.FirstFiring | core/src/fr/baldurcrew/gdx25/water/WaveEmitter.java:27-38 | From 0, the timer fires on the first update that brings it to the wait. |
| Timers.CharacterSpawner.constructor | core/src/fr/baldurcrew/gdx25/character/CharacterSpawner.java:17-25 | The timer starts at 0 and the wait is drawn from the period range. |
| Timers.CharacterSpawner.Update | core/src/fr/baldurcrew/gdx25/character/CharacterSpawner.java:27-38 | Disabled: nothing changes. Enabled: at most one AI character of colour BEIGE..PINK, spawned within the x and y ranges exactly when the timer reaches the wait, then a reset; otherwise the timer grows by `TIME_STEP`. |
| Game.FrameTime | core/src/fr/baldurcrew/gdx25/CoreGame.java:386 | The frame time is `deltaTime` clamped to at most 0.25. |
| Game.StepsIn | core/src/fr/baldurcrew/gdx25/CoreGame.java:388-395 | The number of ticks is the largest `n` with `n*TIME_STEP` within the accumulated time. |
| Game.AtMostFifteenTicks | core/src/fr/baldurcrew/gdx25/CoreGame.java:386-396 | Starting below one `TIME_STEP`, one frame runs at most 15 ticks. |
| Game.TickCountExamples | core/src/fr/baldurcrew/gdx25/CoreGame.java:386-396 | A frame of at least one `TIME_STEP` runs a tick; a 1-second frame runs exactly 15. |
| Game.Repeat | core/src/fr/baldurcrew/gdx25/CoreGame.java:388-395 | `n` ticks log six events each. |
| Game.RepeatOrder | core/src/fr/baldurcrew/gdx25/CoreGame.java:389-394 | Each tick runs characters, wave emitter, spawner, water, world step and boat, in that order. |
| Game.CoreGame.DoPhysicsStep | core/src/fr/baldurcrew/gdx25/CoreGame.java:383-397 | Runs `StepsIn` ticks in order and leaves the accumulator below `TIME_STEP`, non-negative if it and `deltaTime` were. |
| Game.CoreGame.constructor | core/src/fr/baldurcrew/gdx25/CoreGame.java:63 | The accumulator starts at 0; the level holds the water and characters it is given. |
| Game.DebugFlags.constructor | core/src/fr/baldurcrew/gdx25/CoreGame.java:47-54 | The debug flags start with their declared values. |
| Game.CoreGame.HandleDebugKeys | core/src/fr/baldurcrew/gdx25/CoreGame.java:350-373 | F1 always toggles debug mode; F2–F6 toggle their flags and F12 asks for a level reset only in debug mode. |
| Game.TouchWorldX | core/src/fr/baldurcrew/gdx25/CoreGame.java:375-378 | A touch inside the screen maps to a world x within the viewport width. |
| Game.CoreGame.HandleInputs | core/src/fr/baldurcrew/gdx25/CoreGame.java:347-381 | Every character first takes the held arrow keys; if one has never been rendered, the call fails there and the debug keys and the touch are not handled. Otherwise the debug keys as above, and a touch is forwarded to the water's `handleInput` at its world x. |
| Game.CoreGame.ForwardArrowKeys | core/src/fr/baldurcrew/gdx25/CoreGame.java:348 | The characters take the keys in order; it fails exactly when a key is held and some character has no frame yet, leaving that character IDLE and the ones before it moved; no key keeps every frame's flip. |
| Boats.Boat.constructor | core/src/fr/baldurcrew/gdx25/boat/Boat.java:17-55 | A boat starts upright at its centre, not eaten, not frozen, with density 0.25, restitution 0.3 and friction 0.25. |
| Boats.Boat.Update | core/src/fr/baldurcrew/gdx25/boat/Boat.java:105-131 | x is pinned to the middle; a frozen y overrides the eaten motion; the timer and latch advance by `LatchStep`; once upside down, always upside down. |
| Boats.ClampedAngle | core/src/fr/baldurcrew/gdx25/boat/Boat.java:120 | `|degrees % 360|` lies in `[0, 360)`. |
| Boats.EatenY | core/src/fr/baldurcrew/gdx25/boat/Boat.java:109-113 | While the tentacle rises, the dragged y stays between the recorded y and the target. |
| Boats.EatenYEnds | core/src/fr/baldurcrew/gdx25/boat/Boat.java:109-113 | The eaten boat starts at `startingY`, is halfway at half the duration and reaches the target at the end. |
| Boats.LatchStep | core/src/fr/baldurcrew/gdx25/boat/Boat.java:120-130 | One tick never clears the latch, sets it only on a tilted tick whose timer reaches 1.5, and resets the timer on an upright tick. |
| Boats.LatchNeverReleases | core/src/fr/baldurcrew/gdx25/boat/Boat.java:120-130 | Once `upsideDown` is set, no sequence of ticks clears it. |
| Boats.TiltedRun | core/src/fr/baldurcrew/gdx25/boat/Boat.java:120-130 | `n` tilted ticks add `n*TIME_STEP`, and latch exactly when the timer reaches 1.5. |
| Boats.NinetyTicksToCapsize | core/src/fr/baldurcrew/gdx25/boat/Boat.java:22-130 | From upright, 89 tilted ticks do not capsize the boat and 90 do. |
| Boats.UprightTickResets | core/src/fr/baldurcrew/gdx25/boat/Boat.java:126-128 | An upright tick resets the timer to 0. |
| Boats.ClampedAngleSymmetric | core/src/fr/baldurcrew/gdx25/boat/Boat.java:120 | Opposite angles give the same clamped angle. |
| Boats.Tilted | core/src/fr/baldurcrew/gdx25/boat/Boat.java:120-121 | Within one turn either way, tilted means rotated by at least 120 degrees. |
| Boats.TiltTestDependsOnTurnCount | core/src/fr/baldurcrew/gdx25/boat/Boat.java:120-121 | 300° counts as tilted while -60°, the same orientation, does not. |
| Boats.TiltFromUpright | core/src/fr/baldurcrew/gdx25/boat/Boat.java:120-121 | The angle away from upright is in `[0, 180]`. |
| Boats.TiltedFromUpright | core/src/fr/baldurcrew/gdx25/boat/Boat.java:120-121 | The corrected test implies the test as written, and within one turn either way it means a rotation of 120 to 240 degrees. |
| Boats.TiltedFromUprightIsAnOrientation | core/src/fr/baldurcrew/gdx25/boat/Boat.java:120-121 | The corrected test depends only on the orientation: it is unchanged by a full turn and by mirroring. |
| Boats.FullTurn | core/src/fr/baldurcrew/gdx25/boat/Boat.java:120 | The tilt from upright is unchanged by a full turn. |
| Boats.Boat.GetMealSizeFactor | core/src/fr/baldurcrew/gdx25/boat/Boat.java:195-197 | A boat makes the tentacle 1.5 times larger. |
| Boats.Boat.SetDensity | core/src/fr/baldurcrew/gdx25/boat/Boat.java:133-143 | The getter returns the new density; every other field of the boat (position, angle, latch, freeze and eaten state, the other two properties) is unchanged. |
| Boats.Boat.SetRestitution | core/src/fr/baldurcrew/gdx25/boat/Boat.java:144-154 | The getter returns the new restitution; every other field of the boat is unchanged. |
| Boats.Boat.SetFriction | core/src/fr/baldurcrew/gdx25/boat/Boat.java:155-165 | The getter returns the new friction; every other field of the boat is unchanged. |
| Boats.Boat.FreezeY | core/src/fr/baldurcrew/gdx25/boat/Boat.java:181-184 | Sets the freeze flag and target; every other field of the boat is unchanged. |
| Boats.Boat.PrepareToBeEaten | core/src/fr/baldurcrew/gdx25/boat/Boat.java:187-192 | Marks the boat eaten, records its y as the start, stores the target and resets the translation timer; every other field of the boat is unchanged. |
| Monsters.Monster.constructor | core/src/fr/baldurcrew/gdx25/monster/Monster.java:38-60 | The monster starts IDLE with no meal. |
| Monsters.Monster.Eat | core/src/fr/baldurcrew/gdx25/monster/Monster.java:110-124 | Only from IDLE: takes the meal, prepares it at `0.85*5 - 1` (the meal changes only as `prepareToBeEaten` says), starts rising from `-5` centred on the meal; otherwise returns false and changes neither the monster nor the boat. |
| Monsters.Monster.RenderFrame | core/src/fr/baldurcrew/gdx25/monster/Monster.java:66-108 | The tentacle state advances by `Render`; while sinking, the meal is frozen at the tentacle's grab height and nothing else of it changes; in the other states the meal is untouched. |
| Monsters.RenderFollowsCycle | core/src/fr/baldurcrew/gdx25/monster/Monster.java:66-104 | A frame keeps the state or moves it to its successor in the cycle; IDLE never moves; a transition leaves `dt` on the clock, otherwise the clock gains `2*dt`. |
| Monsters.AnimationFinishedAfterSevenFrames | core/src/fr/baldurcrew/gdx25/monster/Monster.java:82-91 | The grab animation finishes after seven frames. |
| Monsters.TentacleTravel | core/src/fr/baldurcrew/gdx25/monster/Monster.java:73-101 | The rise goes from -5 to -1 over its duration; the sinking goes from -1 to `mealSizeFactor * -5`. |
| Monsters.RiseEnds | core/src/fr/baldurcrew/gdx25/monster/Monster.java:73-104 | For any meal size, the rise ends after enough frames, counting the double clock advance. |
| Monsters.AfterRiseNotRising | core/src/fr/baldurcrew/gdx25/monster/Monster.java:66-104 | For any meal size, past the rise, frames never return to rising. |
| Monsters.IdleStaysIdle | core/src/fr/baldurcrew/gdx25/monster/Monster.java:70-72 | For any meal size, rendering alone never leaves IDLE. |
| Characters.Character.constructor | core/src/fr/baldurcrew/gdx25/character/Character.java:21-49 | A character starts IDLE with speeds 5 and 2 and no frame yet. |
| Characters.KeyMove | core/src/fr/baldurcrew/gdx25/character/Character.java:112-126 | No key gives IDLE, RIGHT wins over LEFT, LEFT only when RIGHT is not held. |
| Characters.Character.RenderFrame | core/src/fr/baldurcrew/gdx25/character/Character.java:77-88 | The animation clock gains the frame time; afterwards there is a frame, mirrored when the key frame or the previous frame was. |
| Characters.Character.HandleInputs | core/src/fr/baldurcrew/gdx25/character/Character.java:112-126 | RIGHT wins over LEFT, and no key means IDLE; LEFT flips the frame, RIGHT unflips it. A pressed key before the first render fails (the frame is still null), leaving the move IDLE. |
| Characters.DesiredVelocity | core/src/fr/baldurcrew/gdx25/character/Character.java:131-144 | The desired x-velocity is `+max`, `-max` or 0 for RIGHT, LEFT and IDLE. |
| Characters.Character.Update | core/src/fr/baldurcrew/gdx25/character/Character.java:128-150 | The impulse is vertical-free, and applying it to the body reaches exactly the desired velocity. |
| Characters.ImpulseReachesDesiredVelocity | core/src/fr/baldurcrew/gdx25/character/Character.java:146-149 | `mass*(desired - vx)` applied to a body of that mass gives x-velocity `desired` and keeps the y-velocity. |
| AiControllers.GetRandomType | core/src/fr/baldurcrew/gdx25/character/ai/CharacterAiType.java:11-14 | The drawn type is one of the four values. |
| AiControllers.GetRandomDirection | core/src/fr/baldurcrew/gdx25/character/ai/AiController.java:36-41 | The direction is LEFT for a 0 draw and RIGHT otherwise, never IDLE. |
| AiControllers.AiController.constructor | core/src/fr/baldurcrew/gdx25/character/ai/AiController.java:11-15 | Stores the type and a drawn direction; a stalker starts by choosing a target. |
| AiControllers.AiController.GetType | core/src/fr/baldurcrew/gdx25/character/ai/AiController.java:45-47 | Returns the stored type. |
| AiControllers.GetRandomAiController | core/src/fr/baldurcrew/gdx25/character/ai/AiController.java:17-34 | A new controller whose type is the drawn one. |
| AiControllers.AiController.ComputeMoves | core/src/fr/baldurcrew/gdx25/character/ai/StalkerAiController.java:22-65 | Each type's move and new state follow its controller's step; Darwin and BellyDancer never change the direction. |
| AiControllers.StalkerChoosesNearThePlayer | core/src/fr/baldurcrew/gdx25/character/ai/StalkerAiController.java:53-61 | Choosing picks a target within 0.5 of the player, heads towards it, and returns IDLE. |
| AiControllers.StalkerRunsToTheTarget | core/src/fr/baldurcrew/gdx25/character/ai/StalkerAiController.java:36-42 | Without overshoot the stalker runs towards the target and keeps its state. |
| AiControllers.StalkerStopsPastTheTarget | core/src/fr/baldurcrew/gdx25/character/ai/StalkerAiController.java:27-35 | Past the target it stops, and waits 0.2 to 0.5 s if the player is within 0.5, else chooses again. |
| AiControllers.StalkerWaits | core/src/fr/baldurcrew/gdx25/character/ai/StalkerAiController.java:45-50 | Waiting returns IDLE, adds the frame time, and chooses again once the wait is over. |
| AiControllers.StalkerHeadsForANewTarget | core/src/fr/baldurcrew/gdx25/character/ai/StalkerAiController.java:36-61 | The move after choosing a target is the chosen direction. |
| AiControllers.StalkerStep | core/src/fr/baldurcrew/gdx25/character/ai/StalkerAiController.java:22-65 | It moves only while running to a target not yet passed, and then keeps its state; a direction is only ever set to LEFT or RIGHT. |
| AiControllers.MadRunnerStep | core/src/fr/baldurcrew/gdx25/character/ai/MadRunnerAiController.java:17-33 | Untouched: IDLE, direction kept. Touched: it runs its direction, flipping only past the turn line ahead of it, and keeps going between the turn lines. |
| AiControllers.DarwinMove | core/src/fr/baldurcrew/gdx25/character/ai/DarwinAiController.java:11-17 | The current direction when the boat was touched, IDLE otherwise. |
| AiControllers.BellyDancerMove | core/src/fr/baldurcrew/gdx25/character/ai/BellyDancerAiController.java:11-14 | Always IDLE. |
| Actions.GetFramesCount | core/src/fr/baldurcrew/gdx25/character/Action.java:37-39 | The count is the length of the action's frame table, between 1 and 3. |
| Actions.GetFrame | core/src/fr/baldurcrew/gdx25/character/Action.java:33-35 | The frame is taken from the action's table and is a sheet column other than 4. |
| Actions.FramesPartitionTheRow | core/src/fr/baldurcrew/gdx25/character/Action.java:21-25 | The tables use every column 0..10 except 4, each once. |
| Actions.ValuesIndex | core/src/fr/baldurcrew/gdx25/character/Action.java:21-25 | Each action has a position in `values()`. |
| Actions.ActionValuesListEveryAction | core/src/fr/baldurcrew/gdx25/character/Action.java:21-25 | `values()` lists every action exactly once. |
| CharacterResourcesModel.SheetRow | core/src/fr/baldurcrew/gdx25/character/CharacterResources.java:24-38 | A row of the split sheet has the 11 regions of that row. |
| CharacterResourcesModel.ActionRegions | core/src/fr/baldurcrew/gdx25/character/CharacterResources.java:85-92 | Region `i` of an action is the row's region at the action's frame `i`. |
| CharacterResourcesModel.GetCharActionTextureRegions | core/src/fr/baldurcrew/gdx25/character/CharacterResources.java:85-92 | A new array holding exactly `ActionRegions`. |
| CharacterResourcesModel.AnimationStaysInItsRow | core/src/fr/baldurcrew/gdx25/character/CharacterResources.java:85-92 | An animation uses only its colour's row and never column 4. |
| CharacterResourcesModel.ColorAnimations | core/src/fr/baldurcrew/gdx25/character/CharacterResources.java:37-41 | Every action gets an animation of its regions at the frame duration. |
| CharacterResourcesModel.CharacterResources.constructor | core/src/fr/baldurcrew/gdx25/character/CharacterResources.java:30-48 | Every colour 0..4 has an animation for every action. |
| CharacterResourcesModel.CharacterResources.GetAnimation | core/src/fr/baldurcrew/gdx25/character/CharacterResources.java:79-83 | The animation of an action and colour uses that colour's row regions for the action. |
| CharacterResourcesModel.GetRandomCharacterIndex | core/src/fr/baldurcrew/gdx25/character/CharacterResources.java:67-69 | A colour from BEIGE to PINK, never YELLOW. |
| CharacterResourcesModel.GetPlayerCharacterIndex | core/src/fr/baldurcrew/gdx25/character/CharacterResources.java:71-73 | YELLOW, which no AI character gets. |
| CharacterResourcesModel.GetRandomSpawnSound | core/src/fr/baldurcrew/gdx25/character/CharacterResources.java:75-77 | A sound index in `0..3`. |
| CharacterResourcesModel.ResourcesHolder.constructor | core/src/fr/baldurcrew/gdx25/character/CharacterResources.java:26 | No instance exists at first. |
| CharacterResourcesModel.ResourcesHolder.GetInstance | core/src/fr/baldurcrew/gdx25/character/CharacterResources.java:50-56 | Creates the complete instance on the first call and returns the same object afterwards. |
| CharacterResourcesModel.GetInstanceTwice | core/src/fr/baldurcrew/gdx25/character/CharacterResources.java:50-56 | Two calls return the same object. |
| Box2D.Lookup | core/src/fr/baldurcrew/gdx25/physics/WorldContactListener.java:20-28 | A handler is found exactly when the user data is a registered key, and it is that key's handler. |
| PhysicsContacts.WorldContactListener.constructor | core/src/fr/baldurcrew/gdx25/physics/WorldContactListener.java:9 | No handlers are registered at first. |
| PhysicsContacts.WorldContactListener.AddListener | core/src/fr/baldurcrew/gdx25/physics/WorldContactListener.java:11-13 | Maps the handler to itself; adding it again changes nothing. |
| PhysicsContacts.WorldContactListener.BeginContact | core/src/fr/baldurcrew/gdx25/physics/WorldContactListener.java:16-29 | The calls made are `Dispatch` of begin-contact. |
| PhysicsContacts.WorldContactListener.EndContact | core/src/fr/baldurcrew/gdx25/physics/WorldContactListener.java:32-45 | The calls made are `Dispatch` of end-contact. |
| PhysicsContacts.WorldContactListener.PreSolve | core/src/fr/baldurcrew/gdx25/physics/WorldContactListener.java:48-60 | The calls made are `Dispatch` of pre-solve. |
| PhysicsContacts.WorldContactListener.PostSolve | core/src/fr/baldurcrew/gdx25/physics/WorldContactListener.java:63-65 | No call is made. |
| PhysicsContacts.DispatchReachesExactlyTheOwners | core/src/fr/baldurcrew/gdx25/physics/WorldContactListener.java:16-60 | At most two calls, one per registered body owner, each with its own fixture first; no registered owner means no call. |
| PhysicsContacts.DispatchIgnoresFixtureOrder | core/src/fr/baldurcrew/gdx25/physics/WorldContactListener.java:16-45 | Swapping the contact's fixtures delivers the same begin and end calls. |
| WorldContacts.WorldContactListener.constructor | core/src/fr/baldurcrew/gdx25/WorldContactListener.java:9 | No handlers are registered at first. |
| WorldContacts.WorldContactListener.AddListener | core/src/fr/baldurcrew/gdx25/WorldContactListener.java:11-13 | Maps the handler to itself; adding it again changes nothing. |
| WorldContacts.WorldContactListener.BeginContact | core/src/fr/baldurcrew/gdx25/WorldContactListener.java:16-29 | The calls made are `Dispatch` with status Begin. |
| WorldContacts.WorldContactListener.EndContact | core/src/fr/baldurcrew/gdx25/WorldContactListener.java:32-45 | The calls made are `Dispatch` with status End. |
| WorldContacts.WorldContactListener.PreSolve | core/src/fr/baldurcrew/gdx25/WorldContactListener.java:47-50 | No call is made. |
| WorldContacts.WorldContactListener.PostSolve | core/src/fr/baldurcrew/gdx25/WorldContactListener.java:52-55 | No call is made. |
| WorldContacts.DispatchReachesExactlyTheOwners | core/src/fr/baldurcrew/gdx25/WorldContactListener.java:16-45 | Each registered fixture owner gets one update with its own fixture first and the given status; nobody else gets one. |
| WorldContacts.FixtureDataNotBodyData | core/src/fr/baldurcrew/gdx25/WorldContactListener.java:20-25 | A handler stored on the body but not the fixture is reached by the physics listener and not by this one. |
| NumericRendering.ClockFields | core/src/fr/baldurcrew/gdx25/utils/NumericRenderer.java:24-33 | Minutes are `(s mod 3600) / 60`, seconds `s mod 60`, hours `s / 3600`, minutes and seconds in 0..59. |
| NumericRendering.ClockGlyphs | core/src/fr/baldurcrew/gdx25/utils/NumericRenderer.java:31-57 | 8 glyphs with hours, 5 without. |
| NumericRendering.ClockGlyphsSpelled | core/src/fr/baldurcrew/gdx25/utils/NumericRenderer.java:34-57 | The glyphs spell `hh:` when hours are shown, then `mm:ss`, each as tens and units digits. |
| NumericRendering.TimerShowsTheTime | core/src/fr/baldurcrew/gdx25/utils/NumericRenderer.java:23-58 | Up to one hour, 5 glyphs reading `s mod 3600`; above one hour and below 100 hours, 8 glyphs reading `s`; at 100 hours or more the hour digit has no texture. |
| NumericRendering.DigitsHaveTextures | core/src/fr/baldurcrew/gdx25/utils/NumericRenderer.java:12-57 | Every digit drawn has one of the 10 digit textures. |
| NumericRendering.OneHourShowsZero | core/src/fr/baldurcrew/gdx25/utils/NumericRenderer.java:31-57 | Exactly 3600 s shows `00:00` with no hours; 100 hours has no display. |
| NumericRendering.Placed | core/src/fr/baldurcrew/gdx25/utils/NumericRenderer.java:34-57 | One draw per glyph. |
| NumericRendering.PlacedAt | core/src/fr/baldurcrew/gdx25/utils/NumericRenderer.java:29-57 | Glyph `i` is drawn at `left + i*width`, `width` wide and `2*width` high, each one width right of the previous. |
| NumericRendering.PlacedCons | core/src/fr/baldurcrew/gdx25/utils/NumericRenderer.java:34-57 | The first glyph is drawn at the start and the rest one width further right. |
| NumericRendering.PlacedFive | core/src/fr/baldurcrew/gdx25/utils/NumericRenderer.java:49-57 | The five `mm:ss` glyphs are drawn at successive widths. |
| NumericRendering.PlacedThreeThen | core/src/fr/baldurcrew/gdx25/utils/NumericRenderer.java:34-42 | The `hh:` glyphs are drawn first, and the rest continues three widths further right. |
| NumericRendering.FloorQuotient | core/src/fr/baldurcrew/gdx25/utils/NumericRenderer.java:24-32 | Truncating a quotient or a remainder of a non-negative time equals the integer quotient or remainder of its whole seconds. |
| NumericRendering.LayoutSpansTheWidth | core/src/fr/baldurcrew/gdx25/utils/NumericRenderer.java:29-57 | Glyphs abut left to right from `x - w/2`; `hh:mm:ss` ends at `x + w/2`, while `mm:ss` ends at `x + w/3`, off centre. |
| NumericRendering.DrawClock | core/src/fr/baldurcrew/gdx25/utils/NumericRenderer.java:29-57 | The draws made are `ClockLayout` of the fields. |
| NumericRendering.RenderTimer | core/src/fr/baldurcrew/gdx25/utils/NumericRenderer.java:23-58 | The draws made are `TimerLayout` of the time. |
| Randomness.RandomFloat | core/src/fr/baldurcrew/gdx25/water/WaveEmitter.java:22-23 | `MathUtils.random(start, end)` lies between the two bounds, excluding the larger one unless they are equal. |
| Randomness.RandomInt | core/src/fr/baldurcrew/gdx25/character/CharacterResources.java:67-69 | `MathUtils.random(start, end)` on ints lies in `start..end`. |
| JavaMath.Truncate | core/src/fr/baldurcrew/gdx25/boat/Boat.java:120 | The quotient behind Java's `%` is truncated towards zero. |
| JavaMath.JavaRemainder | core/src/fr/baldurcrew/gdx25/boat/Boat.java:120 | Java's float `%` has the dividend's sign and a magnitude below the divisor. |
| JavaMath.QuotientParts | core/src/fr/baldurcrew/gdx25/boat/Boat.java:120 | The remainder is the dividend minus the truncated quotient times the divisor. |

## Left out

- Rendering and UI are not modelled: shaders, `Mesh` uploads, GL calls, `SpriteBatch`/`ShapeRenderer` draws and the ImGui panel. Of the render code, only the state updates (the monster's tentacle cycle, a character's animation clock and frame flip) and the buffer and glyph layouts are modelled; glyph draws are values in a list. The key frame a character's animation picks is a parameter: whether it is mirrored already.
- Box2D is not modelled. Bodies, fixtures, `setTransform`, `applyLinearImpulse`, `getWorldPoint`, mass, angle and velocity queries and `world.step` are parameters or results. The clipper takes the fixtures' world-space vertex lists, so the fixture-to-world conversion of `getIntersection` is not modelled.
- Audio and asset loading are not modelled: textures, sprite sheets, `Music`/`Sound` playback and the GWT launcher. A texture region is its row and column in the sheet.
- `MathUtils.random` and `getDeltaTime()` are parameters. A float draw is a unit value in [0, 1) scaled to the range; an int draw is an offset within the range.
- `float` is `real`, so IEEE rounding, overflow and NaN are not modelled. The two places where the source divides by a possible zero are modelled explicitly. `Percentage` and `ClampedPercentage` return `None` where Java yields an infinity or NaN. `handleInput` with `toX == fromX == xWorld` picks spring 0, since Java rounds NaN to 0.
- Water.WaterSimulation.constructor: requires `springsCount >= 2`; with one spring Java divides by zero while placing it.
- The water tunables (passes, spread, stiffness, dampening, base level) are constants; `WaterSimulation.java` has no setters for them.
- The decay of waves towards the base level is not stated; the source bounds neither the stiffness nor the dampening.
- The water body fixture, `getWaterLevel` and the spring getters are plain field reads with no contract.
- Boats.Boat.GetDensity, Boats.Boat.GetRestitution, Boats.Boat.GetFriction, Boats.Boat.GetX and Boats.Boat.IsEaten are plain field reads with no contract of their own; the setters' rows state what they return.
- CharacterResourcesModel.CharacterResources.GetAnimation: requires a registered colour; Java throws on an unknown colour, which no caller passes (they use the five colours 0 to 4).
- Clipping.Intersection carries no contract of its own: Cramer's rule is stated by `IntersectionIsOnSegment` and `IntersectionOnBothLines`.
- ClippedAreaInsideClip: states that every result point is on or inside every clip edge, and per edge that the strictly inside vertices are kept in order (`ClipRunKeepsInsideVertices`). It does not state that a kept original vertex stays strictly inside to the end. That would be false by value: a crossing point equal to a vertex on a later clip line is indistinguishable from it.
- Boats.Boat.Update: uses the as-written tilt test `Tilted`; the corrected test is stated separately (see Findings).
- NumericRendering.RenderTimer: for a negative time whose minutes are -1 to -9, Java draws the `0` glyph for the tens of minutes and then fails on the missing texture; the model returns `None` without that one draw. The game's sailing time only grows, so it never renders such a time. At 100 hours or more Java fails on the first draw, as the model's `None` says. `(int)` narrowing of huge times is not modelled.
- `RunnerAiController`, `ParallaxLayer`, `CharacterAnimator`, the old root `Character.java`, `Difficulty`, `FixtureContact`, `ContactHandler` and `Eatable` are not modelled beyond the data they carry; they hold no logic or only render code.
- `CoreGame` calls a `WaterSimulation(Range, Range)` constructor and water setters that the water classes do not have. Each file is modelled as written. `spawnCharacter`, level creation and disposal are left out; the spawner returns a spawn request instead of calling them.
- The fallback `return new DarwinAiController(type)` after the switch in `getRandomAiController` cannot be reached with the four enum values, and is not modelled.

## Findings

| source | as written | input that shows it | evidently intended | confidence | as-written member | corrected member |
|---|---|---|---|---|---|---|
| core/src/fr/baldurcrew/gdx25/utils/Range.java:61 | `buildSubRange` rejects when `fromOffset + extent > to`, comparing an offset with an absolute end. | Range `[1, 2]`, `fromOffset = 0.5`, `extent = 1`: accepted, giving `[1.5, 2.5]`, which ends past `to`. | Reject when `fromOffset + extent > to - from`, so the sub-range lies within the range. | not executed | Ranges.Range.BuildSubRange, Ranges.SubRangeCheckLetsOverrunThrough | Ranges.Range.BuildSubRangeWithin |
| core/src/fr/baldurcrew/gdx25/boat/Boat.java:120-121 | The upside-down test takes `|degrees % 360| >= 120`, which depends on how many turns the body angle has accumulated. | Angle 300° (60° from upright) counts as tilted, while -60°, the same orientation, does not. | Test the angle away from upright, `min(c, 360 - c) >= 120`. | not executed | Boats.Tilted, Boats.TiltTestDependsOnTurnCount | Boats.TiltedFromUpright, Boats.TiltedFromUprightIsAnOrientation |
