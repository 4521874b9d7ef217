# Stencil portals of the GL scene renderer

This project models the portal code of the GL renderer in `src/gl/scene/gl_portal.cpp`.

A portal is a region of the screen through which another view is rendered. It is bounded by a set of wall lines, optionally closed by a top and a bottom cap. The renderer marks a portal's footprint in the stencil buffer when it opens the portal (`GLPortal::Start`), and removes the mark again when it closes it (`GLPortal::End`). Nested portals stack. The shared counter `recursion` is the stencil value that means "inside every portal opened so far". Portals without stencil handling instead clear or restore the depth buffer. They also mark their footprint in the alpha channel.

The model is imperative, as the source is.

- **The device.** `RenderDevice.Device` is the GL device seen as a record of the settings the portal code toggles, plus an append-only log of what it asks the device to do. The settings are stencil reference and operation, colour mask, depth test, depth mask, depth function, depth range, texturing, shader effect and blending. Each draw in the log carries the settings in force when it was issued. Each GL call is a method that updates one setting or appends one event.
- **The portal.** `Portals.Portal` is the portal object:
  - its boundary lines;
  - its cached primitive array `primIndices`, an `array<nat>` filled in place on first use;
  - the saved camera visibility flag;
  - `NeedDepthBuffer()` and `NeedCap()` of its variant, as per-instance constants.
- **Shared objects.** `SceneState` holds the shared `recursion` counter and the `rendered_portals` statistic (a global in the source). `Camera` holds the render flags. `DrawInfo` is a draw context; Start opens a child context and End goes back to its parent.
- **Horizons.** `Horizons.HorizonPortal` and `Horizons.EEHorizonPortal` are the horizon portals. Their `DrawContents` methods issue the strip draws of a horizon plane, and the Eternity-style combination of sky, ceiling horizon and floor horizon.

Start, End, DrawPortalStencil and the two DrawContents methods are proved against specification functions of the settings they start from:

- `StencilDraws` for one footprint draw;
- `StencilCreation` and `CreatedState` for a stencil Start;
- `StencilRemoval` and `RemovedState` for a stencil End;
- `HorizonLog` for a horizon;
- `PlanLog` of `EEPlan` for an Eternity-style horizon.

What the source promises is then proved about those functions as lemmas: which pass increments, keeps or decrements the stencil at which level, query placement, and which contents are drawn and how often. `RenderNested` runs Start, the contents and End around any nesting of portals, each portal with its own stencil choice, query wish and query result. Its contract shows that the recursion counter, the stencil reference and operation, and the camera flags come back to where they were.

Two behaviours of the code are easy to miss, and the model keeps both:

- An Eternity-style horizon draws its floor horizon twice.
- A stencil End for a portal without a depth buffer does not turn depth writes back on, although its Start turned them off.

## Model

| member | source | states |
|---|---|---|
| Portals.Flatten | src/gl/scene/gl_portal.cpp:90-99 | the primitive cache holds two entries per boundary line |
| Portals.FlattenAt | src/gl/scene/gl_portal.cpp:94-98 | line i's vertex index and vertex count sit at cache positions 2i and 2i+1 |
| Portals.PairsAreFlatten | src/gl/scene/gl_portal.cpp:92-98 | any array holding every line's pair at 2i and 2i+1 is exactly the cache |
| Portals.Portal.BuildPrimIndices | src/gl/scene/gl_portal.cpp:90-99 | the lazy build allocates a fresh array of 2·lines entries and fills it so that it equals the cache, proved by the loop invariant over the filled pairs |
| Portals.FanDrawsAt | src/gl/scene/gl_portal.cpp:101-104 | the k-th fan is drawn from the k-th cached pair |
| Portals.StencilDrawsStates | src/gl/scene/gl_portal.cpp:101-112 | a footprint draw issues one fan per pair plus two caps when capped; every draw uses the caller's settings, and a cap may instead use the pass's depth adjustment |
| Portals.StencilDrawsOfLines | src/gl/scene/gl_portal.cpp:101-112 | the footprint is one fan per boundary line in line order, then the top cap and the bottom cap only when capped; caps drawn with depth writes off in the all-in-one pass and at the far plane in the restore pass |
| Portals.Portal.DrawPortalStencil | src/gl/scene/gl_portal.cpp:88-113 | builds the cache only when it is empty and never replaces a filled one; the log grows by exactly the footprint draws and the settings end as the pass leaves them (depth range back to full after a capped restore pass) |
| Portals.Portal.DrawFromCache | src/gl/scene/gl_portal.cpp:100-112 | drawing from a filled cache appends the fans then the caps |
| Portals.Portal.DrawCachedFans | src/gl/scene/gl_portal.cpp:101-104 | one fan per cached pair, in order, settings unchanged |
| Portals.Portal.DrawCaps | src/gl/scene/gl_portal.cpp:105-112 | top then bottom cap only when NeedCap and more than one line; depth mask off first in the all-in-one pass, depth range (1,1) around them in the restore pass |
| Portals.Portal.ClearScreen | src/gl/scene/gl_portal.cpp:66-81 | one full-screen strip drawn with texturing and depth test off; depth test on again afterwards |
| Portals.Portal.Start | src/gl/scene/gl_portal.cpp:122-221 | accepts exactly when stencil is not used, or portals are enabled and a query that is actually issued finds samples; counts every call; opens a child context only on success; raises recursion by one exactly on a successful stencil start; with portals disabled changes no setting and logs nothing; otherwise logs the stencil creation and leaves the created settings; the non-stencil path turns depth off only without a depth buffer; saves only the camera's maybe-invisible flag |
| Portals.Portal.CreateStencil | src/gl/scene/gl_portal.cpp:135-201 | the stencil creation as a whole: the pass or passes it draws, the query decision, and the settings left behind |
| Portals.Portal.StencilSetup | src/gl/scene/gl_portal.cpp:136-142 | stencil EQUAL recursion with INCR, no colour, stencil effect, no texture, depth LESS |
| Portals.Portal.DepthVariant | src/gl/scene/gl_portal.cpp:144-148 | depth writes off, and a query only when gl_noquery is off; the branch that would drop the query because no depth buffer is needed is proved unreachable |
| Portals.Portal.DepthPasses | src/gl/scene/gl_portal.cpp:151-182 | the queried stencil pass, then the far-plane pass, then normal drawing; visible unless a query was issued and reported zero samples, in which case stencil op KEEP and func EQUAL the unchanged recursion |
| Portals.Portal.QueriedStencilPass | src/gl/scene/gl_portal.cpp:151-155 | the query brackets exactly the stencil-writing pass |
| Portals.Portal.FarPlanePass | src/gl/scene/gl_portal.cpp:158-163 | stencil EQUAL recursion+1 with KEEP, depth writes on, depth range (1,1), depth ALWAYS, then the depth-clear pass |
| Portals.Portal.AllInOnePass | src/gl/scene/gl_portal.cpp:192-199 | the single all-in-one footprint pass, then stencil EQUAL recursion+1 with KEEP, texture, all channels, no effect, depth test and depth writes off |
| Portals.Portal.CreatedState | src/gl/scene/gl_portal.cpp:158-199 | after a stencil Start the stencil func is EQUAL recursion+1 when visible and EQUAL recursion when not, op KEEP, all colour channels, no effect, texturing on |
| Portals.Portal.CreationLayers | src/gl/scene/gl_portal.cpp:136-199 | every draw of a stencil Start writes no colour, and either increments where the stencil equals recursion or keeps the stencil and writes far-plane depth where it equals recursion+1 |
| Portals.Portal.CreationIncrements | src/gl/scene/gl_portal.cpp:136-192 | the first pass, right after the query begins if one is issued, increments where the stencil equals recursion |
| Portals.Portal.CreationFarPlane | src/gl/scene/gl_portal.cpp:158-163 | with a depth buffer the last pass keeps the stencil and writes depth, ALWAYS, at the far plane where the stencil equals recursion+1 |
| Portals.Portal.CreationQuery | src/gl/scene/gl_portal.cpp:144-163 | a stencil Start draws one pass, or two with a depth buffer; a query is issued exactly when a depth buffer is needed and a query is wanted, and it brackets the first pass |
| Portals.Portal.End | src/gl/scene/gl_portal.cpp:229-312 | restores the outer camera's maybe-invisible flag from Start and keeps its other flags; lowers recursion by one exactly on the stencil path; logs the stencil removal and leaves the removed settings, or on the other path logs the depth release and the alpha-only footprint |
| Portals.Portal.RemoveStencil | src/gl/scene/gl_portal.cpp:244-276 | the stencil removal: recursion lowered by one, then stencil op KEEP and func EQUAL the lowered value |
| Portals.Portal.UnwindStencil | src/gl/scene/gl_portal.cpp:244-266 | depth reset, then the decrementing pass, as one log |
| Portals.Portal.ResetDepth | src/gl/scene/gl_portal.cpp:244-258 | no colour, no effect, no texture; with a depth buffer, a far-plane ALWAYS pass over the footprint; without one, only depth test on |
| Portals.Portal.DecrementPass | src/gl/scene/gl_portal.cpp:261-266 | depth LEQUAL over the full range, stencil EQUAL the current level with DECR over the footprint, then depth LESS |
| Portals.Portal.RemovedState | src/gl/scene/gl_portal.cpp:261-276 | after a stencil End the func is EQUAL recursion-1 with op KEEP, all channels, no effect, texturing on, depth LESS over the full range |
| Portals.Portal.RemovalLayers | src/gl/scene/gl_portal.cpp:244-266 | a stencil End draws one pass, or two with a depth buffer; none writes colour; each keeps the stencil settings it found or decrements where the stencil equals the level being closed |
| Portals.Portal.RemovalDecrements | src/gl/scene/gl_portal.cpp:261-265 | the last pass of a stencil End decrements where the stencil equals the level being closed |
| Portals.Portal.RemovalFarPlane | src/gl/scene/gl_portal.cpp:248-254 | with a depth buffer the first pass of a stencil End writes depth, ALWAYS, at the far plane under the stencil settings End found |
| Portals.Portal.ReleaseDepth | src/gl/scene/gl_portal.cpp:280-288 | non-stencil End: a depth clear with a depth buffer, else depth test and depth writes on |
| Portals.Portal.MarkFootprint | src/gl/scene/gl_portal.cpp:297-310 | alpha-only footprint under depth LEQUAL, full range, stencil effect and plain blending; then all channels, texture, no effect and depth LESS |
| Portals.SaveVisibility | src/gl/scene/gl_portal.cpp:218 | the saved flags are the maybe-invisible flag alone, present exactly when the camera had it |
| Portals.RestoreVisibility | src/gl/scene/gl_portal.cpp:242 | the maybe-invisible flag comes back as saved; every other flag is left as it is |
| Portals.VisibilityRoundTrip | src/gl/scene/gl_portal.cpp:218-292 | restoring what Start saved gives back the flags Start saw when only that flag changed in between |
| Portals.RenderNested | src/gl/scene/gl_portal.cpp:122-312 | any nesting of Start, contents and End, each level with its own usestencil, doquery and query result, leaves recursion, the stencil reference and the KEEP op as found, keeps every portal's cache valid, and keeps every camera flag but maybe-invisible; when at least one portal was started, the camera gets all its flags back |
| Portals.RenderThrough | src/gl/scene/gl_portal.cpp:214-292 | the contents behind an accepted portal, then its End: recursion back by one on the stencil path, stencil func EQUAL recursion with KEEP, the camera flags back as the portal's Start saw them |
| Horizons.HorizonPortal.constructor | src/gl/scene/gl_portal.cpp:325-330 | a stand-alone horizon takes its vertex range from the buffer set-up; a local one is given it by its owner |
| Horizons.QuadStripsAt | src/gl/scene/gl_portal.cpp:361-364 | the k-th strip starts at vertex voffset+4k |
| Horizons.HorizonStripsCover | src/gl/scene/gl_portal.cpp:361-365 | one four-vertex strip at voffset+i for every i = 0, 4, 8, ... below vcount, none missing and none past it, then the ten-vertex strip at voffset+vcount |
| Horizons.HorizonPortal.DrawContents | src/gl/scene/gl_portal.cpp:337-366 | without a material the screen is cleared and no strip is drawn; otherwise blending ONE/ZERO and exactly the strips above, proved by the loop invariant over the strips drawn so far |
| Horizons.HorizonLogDraws | src/gl/scene/gl_portal.cpp:347-365 | a horizon's contents are draws only |
| Horizons.HorizonRedraw | src/gl/scene/gl_portal.cpp:357-365 | drawing a horizon again right away repeats the same draws under the same settings; `EEHorizonPortal.DrawFloor` uses it to show its two floor draws are identical |
| Horizons.EEHorizonPortal.constructor | src/gl/scene/gl_portal.cpp:383-409 | records the two horizons and the vertex ranges the buffer set-up computed for them |
| Horizons.EEPlanCounts | src/gl/scene/gl_portal.cpp:421-444 | sky once exactly when the floor or the ceiling is sky, the ceiling horizon once exactly when the ceiling is not, the floor horizon twice exactly when the floor is not, and never nothing |
| Horizons.EEPlanOrder | src/gl/scene/gl_portal.cpp:421-444 | the sky comes first, then the ceiling horizon, then the floor horizon |
| Horizons.EEHorizonPortal.PlanAppend | src/gl/scene/gl_portal.cpp:421-444 | carrying out a plan in two parts is carrying out the whole |
| Horizons.EEHorizonPortal.PlanLogSky | src/gl/scene/gl_portal.cpp:421-428 | the sky is among a plan's draws exactly when the plan has a sky step |
| Horizons.EEHorizonPortal.SkyDrawn | src/gl/scene/gl_portal.cpp:421-428 | the sky is drawn exactly when the floor or the ceiling is sky |
| Horizons.EEHorizonPortal.DrawCeiling | src/gl/scene/gl_portal.cpp:429-435 | a local horizon with slot 0's vertex range draws the ceiling horizon once |
| Horizons.EEHorizonPortal.DrawFloor | src/gl/scene/gl_portal.cpp:436-444 | a local horizon with slot 1's vertex range draws the floor horizon twice, the second time repeating the first exactly |
| Horizons.EEHorizonPortal.DrawContents | src/gl/scene/gl_portal.cpp:417-445 | the log grows by the plan's draws, in the plan's order |

## Left out

- The GL calls outside the abstract render state are not modelled. These are multisample toggling, `Set2D`, the viewpoint-buffer `Bind`, `Apply` of the attribute index, `SetMaterial`, `SetCameraPos` and `ResetColor`. None of them affects the settings or draws the model records.
- The stencil function is always EQUAL with mask ~0, so only its reference value is recorded. The stencil-fail and depth-fail operations are always KEEP, so only the depth-pass operation is recorded.
- What the stencil and depth tests do to pixels is not modelled.
- `Clocker` timing is not modelled.
- The global `rendered_portals` statistic is kept as a counter on `SceneState`, so that Start's increment can be stated on an object it modifies.
- The occlusion query result, material validation (`FMaterial::ValidateTexture`) and the horizon buffer set-up (`GLHorizonInfo::CalcBuffers`) are inputs. They are `samples`, `HorizonInfo.hasMaterial` and the `VertexRange` values.
- `FDrawInfo::StartDrawInfo` and `EndDrawInfo` are reduced to a child context that remembers its parent and shares the parent's camera.
- A sky portal's contents are one `SkyContents` event that leaves the recorded settings as they were, so the horizons drawn after it start from the settings before it. `GLSkyPortal` drawing is not part of this model.
- The Eternity-style horizon constructor's plane set-up, its floating-point `Texheight` arithmetic and its light clamping are not modelled. The constructor only records the two horizons and their vertex ranges.
- `GetName` and the unused `r_mirror_recursions` are not modelled.
- Render flags are a set of flags rather than a bit mask. Only the maybe-invisible flag is named.
- Horizon portals are separate classes and do not share the `Portal` class. Their `DrawContents` is what the source overrides.
- A local horizon portal's vertex range starts at zero until its owner sets it. In the source those fields are simply not initialised.
- Horizons.HorizonPortal.DrawContents: vertex numbers are unbounded, so the 32-bit unsigned wrap-around of `voffset + i` and of the loop counter is not modelled.
- Portals.RenderNested: this is a driver for nested rendering built from `Start` and `End`. It renders the contents behind the innermost portal as one step that may set or clear the camera's maybe-invisible flag. The gl_portals/gl_noquery configuration is shared by all levels, as it is a global setting in the source.
