/**
 * The per-frame driver of the debug renderer and its configuration: the
 * plugin's settings, the runtime context holding Rapier's debug-render
 * pipeline, and `debug_render_scene`, which draws one frame.
 */
module RenderScene {
  import opened DebugRenderTypes
  import opened RenderPolicy
  import opened RenderBackend

  /** What the debug renderer reads of `RapierContext`: the physics scale and the collider set. */
  datatype RapierContext = RapierContext(physicsScale: real, colliders: map<ColliderHandle, RapierCollider>)

  /**
   * Rapier's traversal of the physics scene: the `draw_line` calls it makes
   * for a given style and mode. The scene itself (bodies, colliders, joints,
   * contacts) is captured by the function.
   */
  type Traversal = (DebugRenderStyle, DebugRenderMode) -> seq<DrawCall>

  /** Rapier's `DebugRenderPipeline`, as far as this renderer uses it. */
  class DebugRenderPipeline {
    var style: DebugRenderStyle
    var mode: DebugRenderMode

    /** `DebugRenderPipeline::new`. */
    constructor (style: DebugRenderStyle, mode: DebugRenderMode)
      ensures this.style == style && this.mode == mode
    {
      this.style := style;
      this.mode := mode;
    }

    /**
     * `DebugRenderPipeline::render`: the traversal's calls, under the
     * current style and mode, go to the backend one by one, in order.
     */
    method Render(backend: BevyLinesRenderBackend, traversal: Traversal)
      modifies backend.gizmos
      ensures backend.gizmos.lines
                == old(backend.gizmos.lines) + Emitted(backend.lookups, backend.physicsScale, traversal(style, mode))
    {
      var calls := traversal(style, mode);
      var i := 0;
      while i < |calls|
        invariant 0 <= i <= |calls|
        invariant backend.gizmos.lines
                    == old(backend.gizmos.lines) + Emitted(backend.lookups, backend.physicsScale, calls[..i])
      {
        assert calls[..i + 1] == calls[..i] + [calls[i]];
        EmittedAppend(backend.lookups, backend.physicsScale, calls[..i], [calls[i]]);
        backend.Draw(calls[i]);
        i := i + 1;
      }
      assert calls[..i] == calls;
    }
  }

  /** `DebugRenderContext`: the settings the application may change between frames. */
  class DebugRenderContext {
    var enabled: bool
    var global: bool
    var pipeline: DebugRenderPipeline

    /**
     * `DebugRenderContext::default`: enabled, global, with Rapier's default
     * pipeline. The style and mode of that pipeline are chosen by Rapier and
     * are given here as parameters.
     */
    constructor Default(pipelineDefaultStyle: DebugRenderStyle, pipelineDefaultMode: DebugRenderMode)
      ensures enabled && global
      ensures fresh(pipeline)
      ensures pipeline.style == pipelineDefaultStyle && pipeline.mode == pipelineDefaultMode
    {
      enabled := true;
      global := true;
      pipeline := new DebugRenderPipeline(pipelineDefaultStyle, pipelineDefaultMode);
    }

    /** A context with the given settings, as the plugin inserts it into the application. */
    constructor (enabled: bool, global: bool, style: DebugRenderStyle, mode: DebugRenderMode)
      ensures this.enabled == enabled && this.global == global
      ensures fresh(pipeline)
      ensures pipeline.style == style && pipeline.mode == mode
    {
      this.enabled := enabled;
      this.global := global;
      pipeline := new DebugRenderPipeline(style, mode);
    }
  }

  /** `RapierDebugRenderPlugin`: the settings the debug renderer starts with. */
  class RapierDebugRenderPlugin {
    var global: bool
    var enabled: bool
    var style: DebugRenderStyle
    var mode: DebugRenderMode

    /**
     * `default()` of the 2D build: enabled, global, Rapier's default style
     * except for rigid-body axes 20 display units long, Rapier's default mode.
     */
    constructor Default2D(rapierDefaultStyle: DebugRenderStyle, rapierDefaultMode: DebugRenderMode)
      ensures enabled && global
      ensures style.rigidBodyAxesLength == 20.0
      ensures style.(rigidBodyAxesLength := rapierDefaultStyle.rigidBodyAxesLength) == rapierDefaultStyle
      ensures mode == rapierDefaultMode
    {
      enabled := true;
      global := true;
      style := rapierDefaultStyle.(rigidBodyAxesLength := 20.0);
      mode := rapierDefaultMode;
    }

    /** `default()` of the 3D build: enabled, global, Rapier's default style and mode. */
    constructor Default3D(rapierDefaultStyle: DebugRenderStyle, rapierDefaultMode: DebugRenderMode)
      ensures enabled && global
      ensures style == rapierDefaultStyle && mode == rapierDefaultMode
    {
      enabled := true;
      global := true;
      style := rapierDefaultStyle;
      mode := rapierDefaultMode;
    }

    /** `disabled()`: the same settings, initially disabled. */
    method Disabled() returns (plugin: RapierDebugRenderPlugin)
      modifies this
      ensures plugin == this
      ensures !enabled
      ensures global == old(global) && style == old(style) && mode == old(mode)
    {
      enabled := false;
      plugin := this;
    }

    /** The context the plugin inserts when it is added to the application. */
    method Build() returns (context: DebugRenderContext)
      ensures fresh(context) && fresh(context.pipeline)
      ensures context.enabled == enabled && context.global == global
      ensures context.pipeline.style == style && context.pipeline.mode == mode
    {
      context := new DebugRenderContext(enabled, global, style, mode);
    }
  }

  /** The marker lookup of a frame: none in global mode, the `ColliderDebug` markers otherwise. */
  function VisibleColliders(global: bool, markers: set<Entity>): (visible: Option<set<Entity>>)
    ensures visible.None? <==> global
    ensures visible.Some? ==> visible.value == markers
  {
    if global then None else Some(markers)
  }

  /** The lookups the backend is built with for one frame. */
  function FrameLookups(rapier: RapierContext, customColors: map<Entity, Color>, markers: set<Entity>,
                        global: bool, asHsla: Color -> DebugColor): Lookups
  {
    Lookups(rapier.colliders, customColors, VisibleColliders(global, markers), asHsla)
  }

  /**
   * The style Rapier renders with: the axes length, given in display units,
   * expressed in physics units; every other field as it was.
   */
  function ScaledStyle(style: DebugRenderStyle, physicsScale: real): (scaled: DebugRenderStyle)
    requires physicsScale != 0.0
    ensures scaled.rigidBodyAxesLength * physicsScale == style.rigidBodyAxesLength
    ensures scaled.(rigidBodyAxesLength := style.rigidBodyAxesLength) == style
  {
    style.(rigidBodyAxesLength := style.rigidBodyAxesLength / physicsScale)
  }

  /**
   * `debug_render_scene`: draws one frame. A disabled context draws nothing
   * and changes nothing. Otherwise Rapier traverses the scene with the axes
   * length divided by the physics scale, its calls go through the backend,
   * and the style is then put back as it was.
   */
  method DebugRenderScene(rapier: RapierContext, renderContext: DebugRenderContext, gizmos: Gizmos,
                          customColors: map<Entity, Color>, markers: set<Entity>,
                          asHsla: Color -> DebugColor, traversal: Traversal)
    requires renderContext.enabled ==> rapier.physicsScale != 0.0
    modifies renderContext.pipeline, gizmos
    ensures renderContext.pipeline.style == old(renderContext.pipeline.style)
    ensures renderContext.pipeline.mode == old(renderContext.pipeline.mode)
    ensures !renderContext.enabled ==> gizmos.lines == old(gizmos.lines)
    ensures renderContext.enabled ==>
              gizmos.lines == old(gizmos.lines) + Emitted(
                FrameLookups(rapier, customColors, markers, renderContext.global, asHsla),
                rapier.physicsScale,
                traversal(ScaledStyle(old(renderContext.pipeline.style), rapier.physicsScale),
                          renderContext.pipeline.mode))
  {
    if !renderContext.enabled {
      return;
    }
    var backend := new BevyLinesRenderBackend(
      rapier.physicsScale, FrameLookups(rapier, customColors, markers, renderContext.global, asHsla), gizmos);
    var pipeline := renderContext.pipeline;
    var unscaledStyle := pipeline.style;
    pipeline.style := pipeline.style.(rigidBodyAxesLength := pipeline.style.rigidBodyAxesLength / rapier.physicsScale);
    pipeline.Render(backend, traversal);
    pipeline.style := unscaledStyle;
  }

  /** In global mode a frame queues exactly one line per call Rapier makes, each the call's own. */
  lemma {:induction false} GlobalFrameDrawsEveryCall(rapier: RapierContext, customColors: map<Entity, Color>, markers: set<Entity>,
                                  asHsla: Color -> DebugColor, calls: seq<DrawCall>)
    ensures var lk := FrameLookups(rapier, customColors, markers, true, asHsla);
            && |Emitted(lk, rapier.physicsScale, calls)| == |calls|
            && forall i :: 0 <= i < |calls| ==>
                 Emitted(lk, rapier.physicsScale, calls)[i] == LineOf(lk, rapier.physicsScale, calls[i])
  {
    EmittedAllDrawn(FrameLookups(rapier, customColors, markers, true, asHsla), rapier.physicsScale, calls);
  }

  /**
   * Outside global mode, every queued line belongs to a call whose object is
   * not a collider, or is a collider whose entity carries the marker.
   */
  lemma {:induction false} MarkedFrameDrawsOnlyMarked(rapier: RapierContext, customColors: map<Entity, Color>, markers: set<Entity>,
                                   asHsla: Color -> DebugColor, calls: seq<DrawCall>, line: GizmoLine)
    requires line in Emitted(FrameLookups(rapier, customColors, markers, false, asHsla), rapier.physicsScale, calls)
    ensures exists i :: 0 <= i < |calls|
              && (!calls[i].obj.Collider? || IsMarkedCollider(FrameLookups(rapier, customColors, markers, false, asHsla), markers, calls[i].obj))
              && line == LineOf(FrameLookups(rapier, customColors, markers, false, asHsla), rapier.physicsScale, calls[i])
  {
    var lk := FrameLookups(rapier, customColors, markers, false, asHsla);
    EmittedOnlyDrawn(lk, rapier.physicsScale, calls, line);
  }

  /**
   * Outside global mode, the line of every call whose object is not a
   * collider, or is a collider whose entity carries the marker, is queued.
   */
  lemma {:induction false} MarkedFrameDrawsMarked(rapier: RapierContext, customColors: map<Entity, Color>, markers: set<Entity>,
                                                  asHsla: Color -> DebugColor, calls: seq<DrawCall>, i: nat)
    requires i < |calls|
    requires !calls[i].obj.Collider? || IsMarkedCollider(FrameLookups(rapier, customColors, markers, false, asHsla), markers, calls[i].obj)
    ensures var lk := FrameLookups(rapier, customColors, markers, false, asHsla);
            LineOf(lk, rapier.physicsScale, calls[i]) in Emitted(lk, rapier.physicsScale, calls)
  {
    EmittedIncludesDrawn(FrameLookups(rapier, customColors, markers, false, asHsla), rapier.physicsScale, calls, i);
  }

  /** Outside global mode, a frame in which no collider is marked draws no collider. */
  lemma {:induction false} UnmarkedCollidersHidden(rapier: RapierContext, customColors: map<Entity, Color>,
                                asHsla: Color -> DebugColor, calls: seq<DrawCall>)
    requires forall i :: 0 <= i < |calls| ==> calls[i].obj.Collider?
    ensures Emitted(FrameLookups(rapier, customColors, {}, false, asHsla), rapier.physicsScale, calls) == []
  {
    EmittedNoneDrawn(FrameLookups(rapier, customColors, {}, false, asHsla), rapier.physicsScale, calls);
  }
}
