/**
 * The Bevy side of the debug renderer: the gizmo line buffer and the
 * backend through which Rapier's pipeline draws, one `draw_line` call at a
 * time.
 */
module RenderBackend {
  import opened DebugRenderTypes
  import opened RenderPolicy

  /** Bevy's `Gizmos`: the lines queued for drawing this frame. */
  class Gizmos {
    var lines: seq<GizmoLine>

    constructor ()
      ensures lines == []
    {
      lines := [];
    }

    /** `Gizmos::line`: queues one line. */
    method Line(start: Vec3, end: Vec3, color: Color)
      modifies this
      ensures lines == old(lines) + [GizmoLine(start, end, color)]
    {
      lines := lines + [GizmoLine(start, end, color)];
    }
  }

  /** A 2D point in display units; the third coordinate is zero. */
  function Scaled2(p: Point2, scale: real): (v: Vec3)
    ensures v.z == 0.0
    ensures scale != 0.0 ==> v.x / scale == p.x && v.y / scale == p.y
    ensures scale == 0.0 ==> v == Vec3(0.0, 0.0, 0.0)
  {
    Vec3(p.x * scale, p.y * scale, 0.0)
  }

  /** A 3D point in display units. */
  function Scaled3(p: Point3, scale: real): (v: Vec3)
    ensures scale != 0.0 ==> v.x / scale == p.x && v.y / scale == p.y && v.z / scale == p.z
    ensures scale == 0.0 ==> v == Vec3(0.0, 0.0, 0.0)
  {
    Vec3(p.x * scale, p.y * scale, p.z * scale)
  }

  /** The 2D build scales a point as the 3D build scales the same point at depth zero. */
  lemma Scaled2IsFlat3D(p: Point2, scale: real)
    ensures Scaled2(p, scale) == Scaled3(Point3(p.x, p.y, 0.0), scale)
  {
  }

  /** The endpoints of a segment in display units. */
  function ScaledEnds(segment: Segment, scale: real): (Vec3, Vec3)
  {
    match segment
    case Segment2(a, b) => (Scaled2(a, scale), Scaled2(b, scale))
    case Segment3(a, b) => (Scaled3(a, scale), Scaled3(b, scale))
  }

  /** The line a drawn call puts into the gizmo buffer. */
  function LineOf(lk: Lookups, scale: real, call: DrawCall): GizmoLine
  {
    var (start, end) := ScaledEnds(call.segment, scale);
    GizmoLine(start, end, GizmoColor(ObjectColor(lk, call.obj, call.color)))
  }

  /** The lines a sequence of `draw_line` calls queues: one per drawn call, in order. */
  function Emitted(lk: Lookups, scale: real, calls: seq<DrawCall>): (lines: seq<GizmoLine>)
    ensures |lines| <= |calls|
  {
    if calls == [] then []
    else
      (if DrawingEnabled(lk, calls[0].obj) then [LineOf(lk, scale, calls[0])] else [])
      + Emitted(lk, scale, calls[1..])
  }

  /** Drawing two batches of calls queues the lines of the first, then those of the second. */
  lemma {:induction false} EmittedAppend(lk: Lookups, scale: real, first: seq<DrawCall>, second: seq<DrawCall>)
    ensures Emitted(lk, scale, first + second) == Emitted(lk, scale, first) + Emitted(lk, scale, second)
  {
    if first != [] {
      assert (first + second)[1..] == first[1..] + second;
      EmittedAppend(lk, scale, first[1..], second);
    } else {
      assert first + second == second;
    }
  }

  /** When every object is drawn (global mode, say), each call queues exactly its own line. */
  lemma {:induction false} EmittedAllDrawn(lk: Lookups, scale: real, calls: seq<DrawCall>)
    requires forall i :: 0 <= i < |calls| ==> DrawingEnabled(lk, calls[i].obj)
    ensures |Emitted(lk, scale, calls)| == |calls|
    ensures forall i :: 0 <= i < |calls| ==> Emitted(lk, scale, calls)[i] == LineOf(lk, scale, calls[i])
  {
    if calls != [] {
      EmittedAllDrawn(lk, scale, calls[1..]);
    }
  }

  /** When no object of the batch is drawn, nothing is queued. */
  lemma {:induction false} EmittedNoneDrawn(lk: Lookups, scale: real, calls: seq<DrawCall>)
    requires forall i :: 0 <= i < |calls| ==> !DrawingEnabled(lk, calls[i].obj)
    ensures Emitted(lk, scale, calls) == []
  {
    if calls != [] {
      EmittedNoneDrawn(lk, scale, calls[1..]);
    }
  }

  /** Every queued line is the line of a call whose object is drawn. */
  lemma {:induction false} EmittedOnlyDrawn(lk: Lookups, scale: real, calls: seq<DrawCall>, line: GizmoLine)
    requires line in Emitted(lk, scale, calls)
    ensures exists i :: 0 <= i < |calls| && DrawingEnabled(lk, calls[i].obj) && line == LineOf(lk, scale, calls[i])
  {
    if DrawingEnabled(lk, calls[0].obj) && line == LineOf(lk, scale, calls[0]) {
      assert 0 < |calls|;
    } else {
      EmittedOnlyDrawn(lk, scale, calls[1..], line);
      var i :| 0 <= i < |calls[1..]| && DrawingEnabled(lk, calls[1..][i].obj)
               && line == LineOf(lk, scale, calls[1..][i]);
      assert calls[i + 1] == calls[1..][i];
    }
  }

  /** Every call whose object is drawn has its line queued. */
  lemma {:induction false} EmittedIncludesDrawn(lk: Lookups, scale: real, calls: seq<DrawCall>, i: nat)
    requires i < |calls| && DrawingEnabled(lk, calls[i].obj)
    ensures LineOf(lk, scale, calls[i]) in Emitted(lk, scale, calls)
  {
    if i > 0 {
      EmittedIncludesDrawn(lk, scale, calls[1..], i - 1);
      assert calls[1..][i - 1] == calls[i];
    }
  }

  /**
   * `BevyLinesRenderBackend`: the backend Rapier draws through during one
   * frame. Only the gizmo buffer changes; the lookups and the scale are
   * fixed when the frame starts.
   */
  class BevyLinesRenderBackend {
    const physicsScale: real
    const lookups: Lookups
    const gizmos: Gizmos

    constructor (physicsScale: real, lookups: Lookups, gizmos: Gizmos)
      ensures this.physicsScale == physicsScale && this.lookups == lookups && this.gizmos == gizmos
    {
      this.physicsScale := physicsScale;
      this.lookups := lookups;
      this.gizmos := gizmos;
    }

    /**
     * `draw_line` of the 2D build: nothing for an object that is not drawn;
     * otherwise exactly one line, both endpoints multiplied by the physics
     * scale, at depth zero, in the object's resolved colour.
     */
    method DrawLine2D(obj: DebugRenderObject, a: Point2, b: Point2, color: DebugColor)
      modifies gizmos
      ensures !DrawingEnabled(lookups, obj) ==> gizmos.lines == old(gizmos.lines)
      ensures DrawingEnabled(lookups, obj) ==>
                gizmos.lines == old(gizmos.lines) + [GizmoLine(
                  Vec3(a.x * physicsScale, a.y * physicsScale, 0.0),
                  Vec3(b.x * physicsScale, b.y * physicsScale, 0.0),
                  GizmoColor(ObjectColor(lookups, obj, color)))]
    {
      if !DrawingEnabled(lookups, obj) {
        return;
      }
      var scale := physicsScale;
      var c := ObjectColor(lookups, obj, color);
      var start, end := Vec3(a.x * scale, a.y * scale, 0.0), Vec3(b.x * scale, b.y * scale, 0.0);
      gizmos.Line(start, end, GizmoColor(c));
      assert GizmoLine(start, end, GizmoColor(c)) == GizmoLine(
        Vec3(a.x * physicsScale, a.y * physicsScale, 0.0),
        Vec3(b.x * physicsScale, b.y * physicsScale, 0.0),
        GizmoColor(ObjectColor(lookups, obj, color)));
    }

    /**
     * `draw_line` of the 3D build: as in 2D, with all three coordinates
     * multiplied by the physics scale.
     */
    method DrawLine3D(obj: DebugRenderObject, a: Point3, b: Point3, color: DebugColor)
      modifies gizmos
      ensures !DrawingEnabled(lookups, obj) ==> gizmos.lines == old(gizmos.lines)
      ensures DrawingEnabled(lookups, obj) ==>
                gizmos.lines == old(gizmos.lines) + [GizmoLine(
                  Vec3(a.x * physicsScale, a.y * physicsScale, a.z * physicsScale),
                  Vec3(b.x * physicsScale, b.y * physicsScale, b.z * physicsScale),
                  GizmoColor(ObjectColor(lookups, obj, color)))]
    {
      if !DrawingEnabled(lookups, obj) {
        return;
      }
      var scale := physicsScale;
      var c := ObjectColor(lookups, obj, color);
      var start, end := Vec3(a.x * scale, a.y * scale, a.z * scale), Vec3(b.x * scale, b.y * scale, b.z * scale);
      gizmos.Line(start, end, GizmoColor(c));
      assert GizmoLine(start, end, GizmoColor(c)) == GizmoLine(
        Vec3(a.x * physicsScale, a.y * physicsScale, a.z * physicsScale),
        Vec3(b.x * physicsScale, b.y * physicsScale, b.z * physicsScale),
        GizmoColor(ObjectColor(lookups, obj, color)));
    }

    /** One `draw_line` call of Rapier, whichever build made it, queues what `Emitted` says. */
    method Draw(call: DrawCall)
      modifies gizmos
      ensures gizmos.lines == old(gizmos.lines) + Emitted(lookups, physicsScale, [call])
    {
      assert [call][1..] == [];
      match call.segment
      case Segment2(a, b) =>
        DrawLine2D(call.obj, a, b, call.color);
        assert LineOf(lookups, physicsScale, call) == GizmoLine(
          Vec3(a.x * physicsScale, a.y * physicsScale, 0.0),
          Vec3(b.x * physicsScale, b.y * physicsScale, 0.0),
          GizmoColor(ObjectColor(lookups, call.obj, call.color)));
      case Segment3(a, b) =>
        DrawLine3D(call.obj, a, b, call.color);
        assert LineOf(lookups, physicsScale, call) == GizmoLine(
          Vec3(a.x * physicsScale, a.y * physicsScale, a.z * physicsScale),
          Vec3(b.x * physicsScale, b.y * physicsScale, b.z * physicsScale),
          GizmoColor(ObjectColor(lookups, call.obj, call.color)));
    }
  }

  /** Endpoints (1, 2, 3) and (4, 5, 6) at scale 2 become (2, 4, 6) and (8, 10, 12). */
  lemma ScaleExample()
    ensures Scaled3(Point3(1.0, 2.0, 3.0), 2.0) == Vec3(2.0, 4.0, 6.0)
    ensures Scaled3(Point3(4.0, 5.0, 6.0), 2.0) == Vec3(8.0, 10.0, 12.0)
    ensures Scaled2(Point2(1.0, 2.0), 2.0) == Vec3(2.0, 4.0, 0.0)
  {
  }
}
