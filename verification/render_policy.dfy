/**
 * The overlay policy of the Bevy debug-render backend: whether the lines of
 * a debug object are drawn, and in which colour. Both decisions are pure
 * lookups in tables the backend only reads during a frame.
 */
module RenderPolicy {
  import opened DebugRenderTypes

  /**
   * What `BevyLinesRenderBackend` reads while deciding: Rapier's collider
   * set, the `ColliderDebugColor` components by entity, the `ColliderDebug`
   * markers (absent when every collider is drawn) and Bevy's conversion
   * `Color::as_hsla_f32`, which lies outside this model.
   */
  datatype Lookups = Lookups(
    colliders: map<ColliderHandle, RapierCollider>,
    customColors: map<Entity, Color>,
    visibleColliders: Option<set<Entity>>,
    asHsla: Color -> DebugColor)

  /** The object is a collider that resolves to an entity carrying a `ColliderDebugColor`. */
  ghost predicate HasColorOverride(lk: Lookups, obj: DebugRenderObject)
  {
    && obj.Collider?
    && obj.handle in lk.colliders
    && EntityOf(lk.colliders[obj.handle].userData) in lk.customColors
  }

  /** The colour override of an object that has one. */
  ghost function OverrideOf(lk: Lookups, obj: DebugRenderObject): Color
    requires HasColorOverride(lk, obj)
  {
    lk.customColors[EntityOf(lk.colliders[obj.handle].userData)]
  }

  /** The object is a collider that resolves to an entity carrying the `ColliderDebug` marker. */
  ghost predicate IsMarkedCollider(lk: Lookups, markers: set<Entity>, obj: DebugRenderObject)
  {
    && obj.Collider?
    && obj.handle in lk.colliders
    && EntityOf(lk.colliders[obj.handle].userData) in markers
  }

  /**
   * `object_color`: the colour of a line of `obj` whose default colour,
   * chosen by Rapier, is `default`. A collider whose entity has a colour
   * override takes it whatever the default; every other object, and every
   * collider without an override or without a resolvable handle, keeps the
   * default exactly.
   */
  function ObjectColor(lk: Lookups, obj: DebugRenderObject, default: DebugColor): (r: DebugColor)
    ensures HasColorOverride(lk, obj) ==> r == lk.asHsla(OverrideOf(lk, obj))
    ensures !HasColorOverride(lk, obj) ==> r == default
    ensures !obj.Collider? ==> r == default
  {
    var color :=
      match obj
      case Collider(h) =>
        if h in lk.colliders then
          var entity := EntityOf(lk.colliders[h].userData);
          if entity in lk.customColors then Some(lk.customColors[entity]) else None
        else None
      case _ => None;
    match color
    case Some(c) => lk.asHsla(c)
    case None => default
  }

  /**
   * `drawing_enabled`: whether the lines of `obj` are drawn. Without a
   * marker set (global mode) everything is drawn. With one, a collider is
   * drawn exactly when its handle resolves to a collider whose entity is
   * marked; an unresolvable handle is not drawn; any other object is drawn.
   */
  function DrawingEnabled(lk: Lookups, obj: DebugRenderObject): (r: bool)
    ensures lk.visibleColliders.None? ==> r
    ensures !obj.Collider? ==> r
    ensures lk.visibleColliders.Some? && obj.Collider? ==>
              (r <==> IsMarkedCollider(lk, lk.visibleColliders.value, obj))
  {
    match lk.visibleColliders
    case None => true
    case Some(visible) =>
      match obj
      case Collider(h) =>
        if h in lk.colliders then EntityOf(lk.colliders[h].userData) in visible else false
      case _ => true
  }

  /**
   * Marking more entities never hides an object, and global mode shows at
   * least what any marker set shows.
   */
  lemma MarkersMonotone(lk: Lookups, more: set<Entity>, obj: DebugRenderObject)
    requires lk.visibleColliders.Some? && lk.visibleColliders.value <= more
    ensures DrawingEnabled(lk, obj) ==> DrawingEnabled(lk.(visibleColliders := Some(more)), obj)
    ensures DrawingEnabled(lk, obj) ==> DrawingEnabled(lk.(visibleColliders := None), obj)
  {
  }

  /**
   * The colour decision does not look at the markers or at the global
   * flag, and the visibility decision does not look at the colour table.
   */
  lemma DecisionsIndependent(lk: Lookups, visible: Option<set<Entity>>, colors: map<Entity, Color>,
                             obj: DebugRenderObject, default: DebugColor)
    ensures ObjectColor(lk.(visibleColliders := visible), obj, default) == ObjectColor(lk, obj, default)
    ensures DrawingEnabled(lk.(customColors := colors), obj) == DrawingEnabled(lk, obj)
  {
  }

  /** With an override, the colour does not depend on Rapier's default colour. */
  lemma OverrideIgnoresDefault(lk: Lookups, obj: DebugRenderObject, d1: DebugColor, d2: DebugColor)
    requires HasColorOverride(lk, obj)
    ensures ObjectColor(lk, obj, d1) == ObjectColor(lk, obj, d2)
  {
  }

  /**
   * Entity 7 is marked and coloured `red`, global mode is off: collider 1,
   * whose user data is 7, is drawn in red; collider 2, whose user data is 9,
   * is not drawn; collider 3, which does not resolve, is not drawn.
   */
  lemma MarkedAndColouredScenario(asHsla: Color -> DebugColor, red: Color, default: DebugColor)
    ensures var lk := Lookups(map[1 := RapierCollider(7), 2 := RapierCollider(9)],
                              map[7 := red], Some({7}), asHsla);
            && DrawingEnabled(lk, Collider(1))
            && ObjectColor(lk, Collider(1), default) == asHsla(red)
            && !DrawingEnabled(lk, Collider(2))
            && ObjectColor(lk, Collider(2), default) == default
            && !DrawingEnabled(lk, Collider(3))
            && DrawingEnabled(lk, RigidBody(2))
            && ObjectColor(lk, RigidBody(1), default) == default
  {
    var lk := Lookups(map[1 := RapierCollider(7), 2 := RapierCollider(9)],
                      map[7 := red], Some({7}), asHsla);
    assert EntityOf(7) == 7 && EntityOf(9) == 9;
  }
}
