# Slice renderer cache and visualizer window registry

A Dafny model of two pieces of VAPOR:

- **SliceRendering** (`slice_renderer.dfy`) models the slice renderer in
  `lib/render/SliceRenderer.cpp`. It covers:
  - the cache record of the parameters the current texture was built from;
  - the test that decides whether the texture must be rebuilt;
  - the texture size, clamped to 8000 texels per edge;
  - the sample lattice laid over the slice box;
  - the (value, missing-flag) texture buffer filled texel by texel;
  - the quad vertex builders;
  - the plane mapping of the immediate-mode triangle path;
  - the gray ramp the constructor puts in the color map;
  - the refresh-if-dirty step at the start of painting.

  The renderer is a class whose fields are the cache record, the texture
  edges, the buffer (an `array<real>`), the vertex list and the color map.
  The parameter object, the transfer function and the data manager are
  passed in as values and functions.
- **VizWindows** (`viz_windows.dfy`) models the visualizer window manager in
  `apps/vaporgui/VizWinMgr.cpp`. It covers:
  - how a fresh visualizer name is chosen;
  - the name → window and name → sub-window maps, which are kept in step;
  - which visualizer is active after attaching, activating and closing windows;
  - the ordered listing of names;
  - `Shutdown` and `Restart`.

  The manager is a class with those two maps, the active name and the
  initialized flag as fields.

Behaviour of the source that the model keeps:

- **A failed refresh still replaces the cache.** `_saveCacheParams`
  overwrites the cache record and reallocates the buffer *before* the grid is
  fetched. So a refresh whose fetch fails leaves the new record in place, not
  the old one.
- **The sample lattice is not centred.** The step is (max − min) / (1 + rate)
  and sample `i` sits at min + step·i + step/2. The last sample is therefore
  1.5 steps below the maximum, not half a step (`LatticeEnds`).
- **Above the clamp, sampling stops short of the box.** The step uses the
  unclamped sample rate, but the loops stop at the clamped texture width
  (`ClampedLatticeStopsShort`).
- **The YZ orientation draws the XZ face.** `_setVertexPositions` calls the XZ
  builder for YZ. This is modelled as written (`YZOrientationLeavesYZPlane`).
- **The grid fetch writes back its levels.** The data manager receives the
  refinement and compression levels by pointer and may adjust them. The
  adjusted levels are written into the cache. So right after a refresh, the
  cache is clean only when the data manager kept both levels
  (`CleanAfterSave`).
- **Opacity is not part of the cache key.** It is read at draw time
  (`OpacityDoesNotDirty`).

## Model

| member | source | states |
|---|---|---|
| SliceRendering.Snapshot | lib/render/SliceRenderer.cpp:102-124 | the cache record taken from the live parameters: names, time step, levels, sample rate, orientation, box extents, and the lookup table and value range of the variable's transfer function |
| SliceRendering.IsCacheDirty | lib/render/SliceRenderer.cpp:220-249 | the comparison chain reports dirty exactly when the cached record differs from the record the live parameters would produce |
| SliceRendering.OpacityDoesNotDirty | lib/render/SliceRenderer.cpp:220-249 | changing the constant opacity never changes whether the cache is dirty |
| SliceRendering.CleanAfterSave | lib/render/SliceRenderer.cpp:98-133 | the record saved by a refresh is clean against the same parameters iff the data manager kept the requested refinement and compression levels |
| SliceRendering.ClampTextureSize | lib/render/SliceRenderer.cpp:111-116 | the texture edge for a sample rate: the rate, cut down to 8000 when it is larger |
| SliceRendering.LatticeCoord | lib/render/SliceRenderer.cpp:141-158 | the coordinate of lattice index i on one axis: min + d·i + d/2 with step d = (max − min)/(1 + rate) |
| SliceRendering.SampleCoordinates | lib/render/SliceRenderer.cpp:136-161 | the point sampled for texel (i, j): XY puts i on X and j on Y with Z at the minimum, XZ puts i on X and j on Z with Y at the minimum, any other code puts i on Y and j on Z with X at the minimum |
| SliceRendering.ClampTextureSizeBounds | lib/render/SliceRenderer.cpp:111-116 | the texture edge is at most 8000, at most the sample rate, and is either the rate or 8000 |
| SliceRendering.LatticeStrictlyInside | lib/render/SliceRenderer.cpp:136-161 | for a non-empty interval, every sample index below the sample rate lies strictly between the box minimum and maximum |
| SliceRendering.LatticeEnds | lib/render/SliceRenderer.cpp:136-161 | the first sample is half a step above the minimum and the last (index rate − 1) is one and a half steps below the maximum |
| SliceRendering.SampleCoordinatesOnPlane | lib/render/SliceRenderer.cpp:136-161 | texel (i, j) is sampled at lattice index i on the orientation's first axis and j on its second, with the third axis at the box minimum (XY holds Z, XZ holds Y, every other code holds X), strictly inside the box on each non-collapsed in-plane axis |
| SliceRendering.ClampedLatticeStopsShort | lib/render/SliceRenderer.cpp:111-161 | for a sample rate above 8000, the last texel's sample lies more than (rate − 8000) steps below the box maximum |
| SliceRendering.TexelPair | lib/render/SliceRenderer.cpp:198-213 | the pair stored for texel (i, j): (1, 1) when the grid's value at its sample point equals the missing value, else (value, 0) |
| SliceRendering.TextureData | lib/render/SliceRenderer.cpp:193-214 | the whole buffer the nested loops leave: 2·w·w slots, slot k holding half k mod 2 of the pair of texel ((k/2) mod w, (k/2)/w) |
| SliceRendering.MissingValueRule | lib/render/SliceRenderer.cpp:198-213 | a texel's flag is non-zero iff its sampled value equals the grid's missing value; missing samples store (1, 1) and others store (value, 0) |
| SliceRendering.TextureSlots | lib/render/SliceRenderer.cpp:193-214 | in a w × w texture, texel (i, j) has its value at slot (j·w + i)·2 and its flag at the next slot, both inside the 2·w·w buffer |
| SliceRendering.SlotOwner | lib/render/SliceRenderer.cpp:193-214 | every slot of the buffer belongs to a texel inside the texture, so the loops leave no slot unwritten |
| SliceRendering.SlotsDisjoint | lib/render/SliceRenderer.cpp:193-214 | two texels share a cell index only when they are the same texel, so no texel overwrites another |
| SliceRendering.VertexPositionsFor | lib/render/SliceRenderer.cpp:394-408 | the vertex list after the dispatch: the XY face for XY, the XZ face for XZ and YZ, the current list for any other code |
| SliceRendering.VertexPositionsOnFace | lib/render/SliceRenderer.cpp:394-408 | for the XY, XZ and YZ codes the quad has 4 vertices (12 values), with Z (XY) or Y (XZ, YZ) held at the box minimum |
| SliceRendering.YZOrientationLeavesYZPlane | lib/render/SliceRenderer.cpp:394-408 | for YZ, the quad's second vertex is at the box maximum in X, so it is not the YZ face |
| SliceRendering.XYQuadExample | lib/render/SliceRenderer.cpp:410-428 | the XY quad of the box (0,0,0)–(2,4,6) is (0,0,0), (2,0,0), (2,4,0), (0,4,0) |
| SliceRendering.RenderPlane | lib/render/SliceRenderer.cpp:371-377 | the plane code for an orientation axis: Z gives XY, Y gives XZ, anything else YZ |
| SliceRendering.RenderTriangles | lib/render/SliceRenderer.cpp:366-392 | the six textured vertices of the two triangles, after min is overwritten by max on the axis numbered by the plane code |
| SliceRendering.RenderOnMaxFace | lib/render/SliceRenderer.cpp:366-392 | the six triangle vertices all sit at the box maximum on the axis numbered by the chosen plane code, and the second triangle reuses the first one's diagonal |
| SliceRendering.GrayRamp | lib/render/SliceRenderer.cpp:54-61 | the ramp has 4 entries per color-map entry; entry k is gray level ⌊k/4⌋/(n − 1), or alpha 1 when k mod 4 = 3; every entry is in [0, 1]; it runs from black to white |
| SliceRendering.SliceRenderer.constructor | lib/render/SliceRenderer.cpp:26-73 | the renderer starts with a gray ramp sized by the transfer function of the empty variable name, then refreshes. Afterwards the cache holds the live parameters with the fetched levels and the texture edges are the clamped rate. If the fetch failed, the quad is empty and the color map is still the full gray ramp. If it succeeded, the quad is the face for the orientation, the color map is the transfer function's table, and the buffer is the texel-by-texel texture of the grid |
| SliceRendering.SliceRenderer.SaveCacheParams | lib/render/SliceRenderer.cpp:98-134 | the cache becomes the live snapshot with the fetched levels; the texture is the clamped rate squared over a fresh buffer; the fetch's code is returned; on success the quad, the color map and the whole buffer are the specified ones |
| SliceRendering.SliceRenderer.GetSampleCoordinates | lib/render/SliceRenderer.cpp:136-161 | the coordinates computed in place equal the lattice point of texel (i, j) |
| SliceRendering.SliceRenderer.SaveTextureData | lib/render/SliceRenderer.cpp:163-218 | the fetched levels are written back; on failure the code is returned and the quad, color map and buffer are untouched; on success the quad is rebuilt, the color map becomes the transfer function's table, and the buffer equals the texel-by-texel (value, flag) function of the grid |
| SliceRendering.SliceRenderer.FillRow | lib/render/SliceRenderer.cpp:193-214 | one pass of the inner loop writes row j, extending the part of the buffer that agrees with the texture function from j rows to j + 1 rows |
| SliceRendering.SliceRenderer.SetVertexPositions | lib/render/SliceRenderer.cpp:394-408 | the vertex list becomes the XY face for XY and the XZ face for XZ and YZ; any other code leaves it unchanged |
| SliceRendering.SliceRenderer.SetXYVertexPositions | lib/render/SliceRenderer.cpp:410-428 | the vertex list is the bottom XY face of the box, corners in order (lo,lo), (hi,lo), (hi,hi), (lo,hi) |
| SliceRendering.SliceRenderer.SetXZVertexPositions | lib/render/SliceRenderer.cpp:430-444 | the vertex list is the XZ face at minimum Y, corners in the same order |
| SliceRendering.SliceRenderer.SetYZVertexPositions | lib/render/SliceRenderer.cpp:446-460 | the vertex list is the YZ face at minimum X, corners in the same order |
| SliceRendering.SliceRenderer.PaintGL | lib/render/SliceRenderer.cpp:251-364 | a clean cache leaves every field untouched. A dirty one is refreshed exactly as SaveCacheParams does: new record with the fetched levels, clamped edges and a fresh buffer. On a failed fetch the quad and color map are kept; on success the quad, the color map and the whole buffer are rebuilt. The result is −1 when an OpenGL error is reported, otherwise the refresh code (0 when clean) |
| VizWindows.NatToDecimal | apps/vaporgui/VizWinMgr.cpp:49-66 | the decimal rendering of an index is never empty |
| VizWindows.VizName | apps/vaporgui/VizWinMgr.cpp:55-57 | the k-th candidate name: "Visualizer_No._" followed by the decimal digits of k |
| VizWindows.DecimalRoundTrip | apps/vaporgui/VizWinMgr.cpp:49-66 | reading the decimal rendering back gives the index |
| VizWindows.VizNameInjective | apps/vaporgui/VizWinMgr.cpp:49-66 | two candidate names are equal iff their indices are |
| VizWindows.UsedCandidatesBound | apps/vaporgui/VizWinMgr.cpp:49-66 | if the first n candidate names all occur in a name list, the list has at least n entries |
| VizWindows.MakeVizName | apps/vaporgui/VizWinMgr.cpp:49-66 | the result is not among the current names and is the candidate with the least index that is free, an index no larger than the number of current names |
| VizWindows.StrLessEq | apps/vaporgui/VizWinMgr.cpp:224-231 | the key order of the name maps: lexicographic comparison character by character, a prefix before its extensions |
| VizWindows.StrLessEqTotal | apps/vaporgui/VizWinMgr.cpp:224-231 | the key order of the registry compares any two names |
| VizWindows.StrLessEqAntisymmetric | apps/vaporgui/VizWinMgr.cpp:224-231 | two names ordered both ways are equal |
| VizWindows.StrLessEqTransitive | apps/vaporgui/VizWinMgr.cpp:224-231 | the key order is transitive |
| VizWindows.StrLessEqReflexive | apps/vaporgui/VizWinMgr.cpp:224-231 | the key order is reflexive |
| VizWindows.LeastExists | apps/vaporgui/VizWinMgr.cpp:224-231 | every non-empty set of names has a first key |
| VizWindows.ActiveAfterClose | apps/vaporgui/VizWinMgr.cpp:294-298 | the active name after a window closes: if the closed one was active and others remain, the first remaining key (unless it is empty, which activating ignores); otherwise unchanged |
| VizWindows.LeastUnique | apps/vaporgui/VizWinMgr.cpp:270-308 | the first key of a set is unique |
| VizWindows.CloseInOrder | apps/vaporgui/VizWinMgr.cpp:341-352 | closing the i-th name of the ascending list, with the names after it still registered, hands activity from that name to the next one |
| VizWindows.LastIsGreatest | apps/vaporgui/VizWinMgr.cpp:341-352 | the last name of the ascending listing of a key set is its greatest key |
| VizWindows.ActiveAfterAttaching | apps/vaporgui/VizWinMgr.cpp:354-371 | the active name after attaching a list of names in order: each name that is new to the registry and non-empty becomes active in turn |
| VizWindows.ActiveAfterAttachingIsNew | apps/vaporgui/VizWinMgr.cpp:354-371 | after attaching a list of names, the active name is the old one or a non-empty name that was new to the registry |
| VizWindows.VizWinMgr.constructor | apps/vaporgui/VizWinMgr.cpp:70-90 | the manager starts with empty registries, not initialized, keeping the active name held by the GUI state |
| VizWindows.VizWinMgr.SetActiveViz | apps/vaporgui/VizWinMgr.cpp:193-222 | an empty name leaves the active visualizer unchanged, and any other name becomes active |
| VizWindows.VizWinMgr.GetVisualizerNames | apps/vaporgui/VizWinMgr.cpp:224-231 | the result lists exactly the registered names, in strictly ascending key order |
| VizWindows.VizWinMgr.AttachVisualizer | apps/vaporgui/VizWinMgr.cpp:101-153 | a name already registered changes nothing; a new name gets a window and a sub-window under that name, and becomes active unless it is empty |
| VizWindows.VizWinMgr.LaunchVisualizer | apps/vaporgui/VizWinMgr.cpp:155-167 | the new name is non-empty and unused by the control executive; if the executive refuses it nothing changes, otherwise it is attached |
| VizWindows.VizWinMgr.KillViz | apps/vaporgui/VizWinMgr.cpp:234-246 | a registered window is removed from both maps, and the active name changes as for a closing window |
| VizWindows.VizWinMgr.VizAboutToDisappear | apps/vaporgui/VizWinMgr.cpp:270-308 | an unknown name changes nothing; a known one is removed from both maps; if it was active and others remain, the first remaining key becomes active unless that key is empty |
| VizWindows.VizWinMgr.Shutdown | apps/vaporgui/VizWinMgr.cpp:341-352 | both maps end up empty and the manager uninitialized; an unregistered active name is kept, and a registered one ends as the greatest registered name |
| VizWindows.VizWinMgr.Restart | apps/vaporgui/VizWinMgr.cpp:354-371 | while initialized nothing changes; otherwise the active name is cleared, the given names are attached in order, the maps become the old entries plus the given names, and the active name is the last given name that was new and non-empty (empty if none) |

## Left out

- OpenGL state is not modelled: vertex arrays, buffers, the 1-D color-map texture, the shader and its uniforms, the draw call and the immediate-mode `LegacyGL` calls. `_paintGL` is modelled only as the cache refresh and its error result. `_render` is modelled only as the vertex list it emits.
- SliceRendering.SliceRenderer.PaintGL: the two `printOpenGLError` checks are folded into one `glErrorReported` flag, because both lead to the same result of −1.
- Sizes and lattice arithmetic use unbounded integers. The source computes `_textureWidth * _textureHeight * 2` and `1 + sampleRate` in 32-bit `int`. That product overflows for sample rates of −32768 or below, which is undefined behaviour, and `new float[...]` then typically throws. `1 + sampleRate` overflows at `INT_MAX`. The model allocates rate²·2 slots and divides by 1 + rate exactly, so it does not capture these overflows.
- Coordinates and sampled values are real numbers. Float and double rounding, the `dx/2.f` single-precision constant, and NaN are not modelled.
- SliceRendering.GrayRamp: a one-entry transfer function divides 0 by 0 in float, which gives NaN. The ramp therefore requires a size other than 1.
- The fixed-size `_colorMap` buffer is modelled as a sequence that `makeLut` replaces. The model does not capture that `makeLut` can write past the buffer allocated from the first transfer function's entry count.
- The data manager (`DataMgrUtils::GetGrids`) is a function from request to result. The result carries a grid even on failure, so the model does not capture the dereference of a null grid when the fetch fails. Grid interpolation is the grid's value function.
- `SetErrMsg` messages and `cout` diagnostics are left out.
- The box is given as its extents and orientation code, with the orientation kept as a plain integer. Boxes, parameter objects and the parameter manager are not modelled beyond the values the renderer reads.
- Qt is not modelled: widgets, the MDI area, signals and slots, focus, tiling (`Cascade`, `FitSpace`), trackball sharing, `Update` and `Reinit`. A window is represented only by its name.
- VizWindows.VizWinMgr.KillViz: closing a window reaches `_vizAboutToDisappear` through Qt's close event. The model takes this as a synchronous call.
- VizWindows.VizWinMgr.LaunchVisualizer: the control executive's name list and the result of `NewVisualizer` are parameters.
- VizWindows.VizWinMgr.Restart: the names to re-attach are a parameter, since they are read from the control executive.
- Name order in the registry is lexicographic over characters. This agrees with `std::map<string, …>` byte order for UTF-8 names.
