# Debug-render overlay of bevy_rapier, modelled in Dafny

bevy_rapier draws what the Rapier physics engine "sees" as debug lines in
Bevy. Rapier's `DebugRenderPipeline` walks the physics scene and calls
`draw_line(object, a, b, color)` once per segment. The Bevy backend,
`BevyLinesRenderBackend`, receives those calls and decides two things per
call. First, it decides whether the object is drawn. In global mode every
object is drawn. Otherwise only colliders whose entity carries the
`ColliderDebug` marker are drawn, plus every object that is not a collider.
Second, it decides the colour: a `ColliderDebugColor` on the collider's entity
wins over Rapier's default. A drawn call becomes exactly one Bevy gizmo line,
with its coordinates multiplied by the physics scale. Once per frame,
`debug_render_scene` does nothing when the renderer is disabled. Otherwise it
divides the rigid-body axes length by the physics scale, runs Rapier's
traversal, and restores the saved style by copying it back.

Files:

- `debug_render_types.dfy` (module `DebugRenderTypes`): the values exchanged
  by Rapier, the backend and the gizmos. These are objects, colours, points,
  segments, draw calls, gizmo lines, the style and the mode. The module also
  holds the collider user-data → entity conversion.
- `render_policy.dfy` (module `RenderPolicy`): `object_color` and
  `drawing_enabled` as pure functions over the frame's lookups, and lemmas
  about them.
- `render_backend.dfy` (module `RenderBackend`): Bevy's gizmo buffer as a
  class; the backend as a class with both `draw_line` variants; `Emitted`,
  the lines that a sequence of calls queues; and lemmas about `Emitted`.
- `render_scene.dfy` (module `RenderScene`): Rapier's pipeline, the
  `DebugRenderContext` resource, the `RapierDebugRenderPlugin` settings and
  the frame driver `debug_render_scene`.

How the foreign parts are represented:

- Rapier's scene traversal is a function parameter `Traversal`. It maps the
  style and mode in force to the sequence of `draw_line` calls Rapier makes.
  `DebugRenderPipeline.Render` sends those calls to the backend one by one.
- Bevy's `Gizmos::line` appends to the `lines` field of a `Gizmos` object.
- Bevy's queries are a map from entity to `ColliderDebugColor` and a set of
  entities carrying `ColliderDebug`.
- `Color::as_hsla_f32` is a function carried in the lookups (`asHsla`).
- The defaults of Rapier's `DebugRenderStyle` and `DebugRenderMode` are
  parameters of the constructors that use them.
- `f32` is `real`.

The doc comment of the plugin's `mode` field (src/render/mod.rs:33-35)
promises that by default everything is rendered. The code sets the mode to
`DebugRenderMode::default()` (src/render/mod.rs:49, 58), whose value Rapier
defines, so the model takes that value as a parameter. The early return of
`debug_render_scene` (src/render/mod.rs:204-206) comes before the style is
first read and changed (src/render/mod.rs:221-222), so a disabled frame
leaves the style as it was without any restoring.

## Model

| member | source | states |
|---|---|---|
| DebugRenderTypes.EntityOf | src/render/mod.rs:143 | a collider's entity is its user data truncated to 64 bits (`as u64`); user data below 2^64 is kept unchanged |
| DebugRenderTypes.GizmoColor | src/render/mod.rs:171 | the gizmo colour is an HSLA colour carrying exactly the four resolved components |
| RenderPolicy.ObjectColor | src/render/mod.rs:121-133 | a collider whose resolved entity has a colour override gets the converted override; every other object, unresolved collider or collider without an override gets the default unchanged |
| RenderPolicy.DrawingEnabled | src/render/mod.rs:135-150 | global mode draws everything; non-colliders are always drawn; otherwise a collider is drawn iff its handle resolves and its entity is marked (an unresolved handle is not drawn) |
| RenderPolicy.MarkersMonotone | src/render/mod.rs:136-146 | marking more entities never hides an object, and global mode draws whatever any marker set draws |
| RenderPolicy.DecisionsIndependent | src/render/mod.rs:121-150 | the colour does not depend on the markers or the global flag; visibility does not depend on the colour table |
| RenderPolicy.OverrideIgnoresDefault | src/render/mod.rs:121-132 | with an override, the resolved colour is the same whatever Rapier's default colour |
| RenderPolicy.MarkedAndColouredScenario | src/render/mod.rs:121-150 | entity 7 marked and red, global off: collider of entity 7 drawn in red; collider of entity 9 and an unresolved handle not drawn; a rigid body drawn in its default colour |
| RenderBackend.Gizmos.Line | src/render/mod.rs:168-172 | queuing a line appends exactly that line to the gizmo buffer |
| RenderBackend.Scaled2 | src/render/mod.rs:169-170 | a 2D point in display units is the physics point multiplied by the scale (dividing by a non-zero scale gives the point back; scale 0 gives the origin), with depth zero |
| RenderBackend.Scaled2IsFlat3D | src/render/mod.rs:169-170 | the 2D build scales a point exactly as the 3D build scales the same point at depth zero |
| RenderBackend.Scaled3 | src/render/mod.rs:190-191 | a 3D point in display units is the physics point multiplied by the scale in every coordinate (dividing by a non-zero scale gives the point back; scale 0 gives the origin) |
| RenderBackend.Emitted | src/render/mod.rs:153-195 | a sequence of `draw_line` calls queues at most one line per call |
| RenderBackend.EmittedAppend | src/render/mod.rs:223-230 | drawing two batches of calls queues the first batch's lines followed by the second's |
| RenderBackend.EmittedAllDrawn | src/render/mod.rs:162-172 | when every object is drawn, exactly one line per call is queued, in call order, each the call's scaled and coloured line |
| RenderBackend.EmittedNoneDrawn | src/render/mod.rs:162-164 | when no object is drawn, no line is queued |
| RenderBackend.EmittedOnlyDrawn | src/render/mod.rs:162-172 | every queued line is the line of some call whose object is drawn |
| RenderBackend.EmittedIncludesDrawn | src/render/mod.rs:162-172 | the line of every call whose object is drawn is queued, whatever the other calls of the batch |
| RenderBackend.ScaleExample | src/render/mod.rs:190-191 | (1,2,3) and (4,5,6) at scale 2 become (2,4,6) and (8,10,12); (1,2) in 2D becomes (2,4,0) |
| RenderBackend.BevyLinesRenderBackend.constructor | src/render/mod.rs:213-219 | the backend holds the frame's scale, lookups and gizmo buffer |
| RenderBackend.BevyLinesRenderBackend.DrawLine2D | src/render/mod.rs:155-173 | an object that is not drawn queues nothing; a drawn object queues exactly one line, both endpoints scaled with z = 0, in the resolved colour |
| RenderBackend.BevyLinesRenderBackend.DrawLine3D | src/render/mod.rs:176-194 | an object that is not drawn queues nothing; a drawn object queues exactly one line, all coordinates scaled, in the resolved colour |
| RenderBackend.BevyLinesRenderBackend.Draw | src/render/mod.rs:153-195 | one call of either build queues exactly what `Emitted` gives for that call |
| RenderScene.DebugRenderPipeline.constructor | src/render/mod.rs:103 | the pipeline starts with the given style and mode |
| RenderScene.DebugRenderPipeline.Render | src/render/mod.rs:223-230 | the traversal's calls under the current style and mode reach the backend in order; the gizmo buffer grows by `Emitted` of them |
| RenderScene.DebugRenderContext.Default | src/render/mod.rs:86-94 | the default context is enabled and global, with a fresh pipeline holding the style and mode Rapier's default pipeline has |
| RenderScene.DebugRenderContext.constructor | src/render/mod.rs:100-104 | the context gets the given enabled and global flags and a new pipeline with the given style and mode |
| RenderScene.RapierDebugRenderPlugin.Default2D | src/render/mod.rs:40-51 | the 2D default is enabled and global, with Rapier's default style except an axes length of 20, and Rapier's default mode |
| RenderScene.RapierDebugRenderPlugin.Default3D | src/render/mod.rs:52-60 | the 3D default is enabled and global, with Rapier's default style and mode |
| RenderScene.RapierDebugRenderPlugin.Disabled | src/render/mod.rs:65-68 | `disabled()` clears `enabled`, leaves global, style and mode unchanged, and returns the same plugin |
| RenderScene.RapierDebugRenderPlugin.Build | src/render/mod.rs:100-104 | the inserted context copies the plugin's enabled, global, style and mode |
| RenderScene.VisibleColliders | src/render/mod.rs:208-212 | no marker lookup iff global; otherwise the marker set itself |
| RenderScene.ScaledStyle | src/render/mod.rs:222 | the rendered axes length times the physics scale is the configured one; every other style field is unchanged |
| RenderScene.DebugRenderScene | src/render/mod.rs:197-232 | disabled: nothing is queued and the style is untouched; enabled: the traversal runs with the scaled style, exactly `Emitted` of its calls is queued, and the style and mode on exit equal those on entry |
| RenderScene.GlobalFrameDrawsEveryCall | src/render/mod.rs:208-209 | in a global frame, every call Rapier makes queues its own line, in order |
| RenderScene.MarkedFrameDrawsOnlyMarked | src/render/mod.rs:210-212 | in a non-global frame, every queued line comes from a non-collider or from a collider whose entity is marked |
| RenderScene.MarkedFrameDrawsMarked | src/render/mod.rs:139-148 | in a non-global frame, the line of every call from a non-collider or from a collider whose entity is marked is queued |
| RenderScene.UnmarkedCollidersHidden | src/render/mod.rs:139-146 | in a non-global frame with no markers, a batch made only of collider calls queues nothing |

## Left out

- Bevy plugin wiring: type registration, resource insertion into the `App`, and scheduling after transform propagation (src/render/mod.rs:96-110). Only the construction of the context is modelled, as `Build`.
- `Reflect` derivation and registration on `DebugRenderContext`: these are framework plumbing.
- Rapier's scene traversal and shape-to-segment decomposition. This code is not part of this model; it is the `Traversal` parameter.
- Bevy's line rasterisation: a queued gizmo line is the end of the model.
- `Entity::from_bits` bit layout: the truncated 64-bit value is taken as the entity. The two Bevy query failures, a missing entity and a missing component, both become "not in the map or set".
- `Color::as_hsla_f32` conversion: this is a foreign call and is passed in as `asHsla`. Bevy colour representations other than RGBA and HSLA are not modelled.
- Rapier's default `DebugRenderStyle` and `DebugRenderMode` values are defined outside this file and are constructor parameters. Of the style, only the axes length and three other fields are modelled; the colour fields are not.
- f32 rounding: arithmetic is exact on `real`. So the difference between restoring by copy (what the code does, and the model too) and restoring by multiplying back cannot show up.
- DebugRenderScene: requires a non-zero physics scale when enabled. In f32, a zero scale makes the axes length infinite or NaN, which `real` cannot represent.
- ScaledStyle: requires a non-zero physics scale, for the same reason: the f32 division by zero has no `real` counterpart.
- The 2D/3D choice is made at build time in the source. Here it is a tag on each segment, and a single build only produces one kind.
- Rapier's pipeline state other than style and mode is not modelled.
