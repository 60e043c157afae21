/**
 * The debug overlay: an on/off state machine with a lazily created frame
 * timer, a panel whose visibility follows the mode, and a wireframe switch
 * that walks every object of the scene. The wrapped frame callback times
 * the scene's `animate` only while debugging.
 */
module ZenDebug {
  import opened Numbers
  import opened Wrappers
  import opened ZenElements
  import opened ZenSpace
  import Ripples

  // ---------------------------------------------------------------------
  // Materials and the wireframe flag
  // ---------------------------------------------------------------------

  /** A material; `wireframe` is `None` for materials that do not define the field. */
  datatype Material = Material(id: nat, wireframe: Option<bool>)

  /** An object's `material` property: absent, one material, or an array of them. */
  datatype MaterialSlot = NoMaterial | Single(material: Material) | Many(materials: seq<Material>)

  datatype SceneObject = SceneObject(id: nat, slot: MaterialSlot)

  /** The write `mat.wireframe = enabled`, done only when the field is defined. */
  function SetWireframe(m: Material, enabled: bool): (r: Material)
    ensures r.id == m.id
    ensures r.wireframe.Some? <==> m.wireframe.Some?
    ensures m.wireframe.Some? ==> r.wireframe == Some(enabled)
    ensures m.wireframe.None? ==> r == m
  {
    if m.wireframe.Some? then m.(wireframe := Some(enabled)) else m
  }

  /** The wireframe write applied to one object: to its single material or to each element of its array. */
  function ObjectWireframe(o: SceneObject, enabled: bool): (r: SceneObject)
    ensures r.id == o.id
    ensures o.slot.NoMaterial? ==> r == o
    ensures o.slot.Single? ==> r.slot == Single(SetWireframe(o.slot.material, enabled))
    ensures o.slot.Many? ==> r.slot.Many? && |r.slot.materials| == |o.slot.materials|
    ensures o.slot.Many? ==> forall k :: 0 <= k < |o.slot.materials| ==>
              r.slot.materials[k] == SetWireframe(o.slot.materials[k], enabled)
  {
    match o.slot
    case NoMaterial => o
    case Single(m) => o.(slot := Single(SetWireframe(m, enabled)))
    case Many(ms) =>
      o.(slot := Many(seq(|ms|, k requires 0 <= k < |ms| => SetWireframe(ms[k], enabled))))
  }

  /** The flag every material of a slot that defines it carries. */
  ghost predicate SlotFlagged(slot: MaterialSlot, enabled: bool)
  {
    match slot
    case NoMaterial => true
    case Single(m) => m.wireframe.Some? ==> m.wireframe == Some(enabled)
    case Many(ms) => forall k :: 0 <= k < |ms| && ms[k].wireframe.Some? ==> ms[k].wireframe == Some(enabled)
  }

  /** After the write, every material that defines the field holds the new flag. */
  lemma ObjectWireframeFlags(o: SceneObject, enabled: bool)
    ensures SlotFlagged(ObjectWireframe(o, enabled).slot, enabled)
  {
  }

  /** The last write wins: writing `b1` and then `b2` is writing `b2`. */
  lemma ObjectWireframeLastWins(o: SceneObject, b1: bool, b2: bool)
    ensures ObjectWireframe(ObjectWireframe(o, b1), b2) == ObjectWireframe(o, b2)
  {
    if o.slot.Many? {
      var once := ObjectWireframe(o, b2);
      var twice := ObjectWireframe(ObjectWireframe(o, b1), b2);
      assert twice.slot.materials == once.slot.materials;
    }
  }

  /** Writing the flag a material already holds changes nothing. */
  lemma ObjectWireframeIdempotent(o: SceneObject, enabled: bool)
    ensures ObjectWireframe(ObjectWireframe(o, enabled), enabled) == ObjectWireframe(o, enabled)
  {
    ObjectWireframeLastWins(o, enabled, enabled);
  }

  /** An object whose materials already carry the flag is left as it is. */
  lemma ObjectWireframeFixed(o: SceneObject, enabled: bool)
    requires SlotFlagged(o.slot, enabled)
    ensures ObjectWireframe(o, enabled) == o
  {
    if o.slot.Many? {
      assert ObjectWireframe(o, enabled).slot.materials == o.slot.materials;
    }
  }

  // ---------------------------------------------------------------------
  // The frame timer
  // ---------------------------------------------------------------------

  /** The stats object: the last `begin` time and the last measured frame time, undefined until set. */
  datatype Stats = Stats(startTime: Option<real>, frameTime: Option<real>)

  /** The stats object `start` creates. */
  const NewStats: Stats := Stats(None, None)

  // ---------------------------------------------------------------------
  // The debug controller
  // ---------------------------------------------------------------------

  class Debugger {
    var active: bool
    var stats: Option<Stats>
    /** How many stats objects have been created so far. */
    ghost var statsCreated: nat
    /** Whether the debug panel exists, and whether it is displayed. */
    const hasPanel: bool
    var panelVisible: bool
    /** Whether `ZenSpace.scene` exists, and its objects in traversal order. */
    const hasScene: bool
    const objects: array<SceneObject>

    /**
     * The stats object exists exactly when it was created, and it is created
     * at most once; it always exists while debugging; the panel is displayed
     * exactly while debugging.
     */
    ghost predicate Valid()
      reads this
    {
      && statsCreated <= 1
      && (stats.Some? <==> statsCreated == 1)
      && (active ==> stats.Some?)
      && panelVisible == (hasPanel && active)
    }

    /** The initial state: inactive, no stats, panel hidden. */
    constructor (hasPanel: bool, hasScene: bool, objects: array<SceneObject>)
      ensures Valid()
      ensures !active && stats == None && statsCreated == 0 && !panelVisible
      ensures this.hasPanel == hasPanel && this.hasScene == hasScene && this.objects == objects
    {
      active := false;
      stats := None;
      statsCreated := 0;
      this.hasPanel := hasPanel;
      panelVisible := false;
      this.hasScene := hasScene;
      this.objects := objects;
    }

    /** `start`: a no-op while active; otherwise debugging begins, stats are created if missing and the panel is shown. */
    method Start()
      requires Valid()
      modifies this
      ensures Valid()
      ensures old(active) ==> unchanged(this)
      ensures !old(active) ==> active && panelVisible == hasPanel
      ensures !old(active) ==> stats == (if old(stats).Some? then old(stats) else Some(NewStats))
      ensures statsCreated == (if old(stats).None? then 1 else old(statsCreated))
    {
      if active {
        return;
      }
      active := true;
      if stats.None? {
        stats := Some(NewStats);
        statsCreated := statsCreated + 1;
      }
      if hasPanel {
        panelVisible := true;
      }
    }

    /**
     * `toggleWireframe`: with a scene, every object takes the write for the
     * new flag; without one, nothing changes.
     */
    method ToggleWireframe(enabled: bool)
      modifies objects
      ensures !hasScene ==> objects[..] == old(objects[..])
      ensures hasScene ==> forall i :: 0 <= i < objects.Length ==> objects[i] == ObjectWireframe(old(objects[i]), enabled)
    {
      if !hasScene {
        return;
      }
      for i := 0 to objects.Length
        invariant forall k :: 0 <= k < i ==> objects[k] == ObjectWireframe(old(objects[k]), enabled)
        invariant forall k :: i <= k < objects.Length ==> objects[k] == old(objects[k])
      {
        objects[i] := ObjectWireframe(objects[i], enabled);
      }
    }

    /** `stop`: a no-op while inactive; otherwise debugging ends, the panel is hidden and wireframes are switched off. */
    method Stop()
      requires Valid()
      modifies this, objects
      ensures Valid()
      ensures !old(active) ==> unchanged(this) && objects[..] == old(objects[..])
      ensures old(active) ==> !active && !panelVisible && stats == old(stats) && statsCreated == old(statsCreated)
      ensures old(active) && hasScene ==>
                forall i :: 0 <= i < objects.Length ==> objects[i] == ObjectWireframe(old(objects[i]), false)
      ensures old(active) && !hasScene ==> objects[..] == old(objects[..])
    {
      if !active {
        return;
      }
      active := false;
      if hasPanel {
        panelVisible := false;
      }
      ToggleWireframe(false);
    }

    /** `toggle`: flips the mode, so toggling twice restores it; the stats object survives either way. */
    method Toggle()
      requires Valid()
      modifies this, objects
      ensures Valid()
      ensures active == !old(active)
      ensures stats == (if old(stats).Some? then old(stats) else Some(NewStats))
      ensures old(active) && hasScene ==>
                forall i :: 0 <= i < objects.Length ==> objects[i] == ObjectWireframe(old(objects[i]), false)
      ensures !(old(active) && hasScene) ==> objects[..] == old(objects[..])
    {
      if active {
        Stop();
      } else {
        Start();
      }
    }

    /** The keyboard shortcut: Alt+D toggles debugging, any other key does nothing. */
    method OnKeyDown(altKey: bool, key: string)
      requires Valid()
      modifies this, objects
      ensures Valid()
      ensures active == (if altKey && key == "d" then !old(active) else old(active))
      ensures !(altKey && key == "d") ==> unchanged(this) && objects[..] == old(objects[..])
      ensures altKey && key == "d" ==> stats == (if old(stats).Some? then old(stats) else Some(NewStats))
      ensures altKey && key == "d" && old(active) && hasScene ==>
                forall i :: 0 <= i < objects.Length ==> objects[i] == ObjectWireframe(old(objects[i]), false)
      ensures altKey && key == "d" && !(old(active) && hasScene) ==> objects[..] == old(objects[..])
    {
      if altKey && key == "d" {
        Toggle();
      }
    }

    /** `stats.begin()`, done only while debugging with a stats object: records the begin time. */
    method BeginFrame(now: real)
      requires Valid()
      modifies this`stats
      ensures Valid()
      ensures active ==> stats == Some(old(stats).value.(startTime := Some(now)))
      ensures !active ==> stats == old(stats)
    {
      if active && stats.Some? {
        stats := Some(stats.value.(startTime := Some(now)));
      }
    }

    /** `stats.end()`, done only while debugging with a stats object: the frame time since the begin time. */
    method EndFrame(now: real)
      requires Valid()
      requires active ==> stats.value.startTime.Some?
      modifies this`stats
      ensures Valid()
      ensures active ==> stats == Some(old(stats).value.(frameTime := Some(now - old(stats).value.startTime.value)))
      ensures !active ==> stats == old(stats)
    {
      if active && stats.Some? {
        var startTime := stats.value.startTime.value;
        stats := Some(stats.value.(frameTime := Some(now - startTime)));
      }
    }

    /**
     * The wrapped `animate`: the stats object takes the begin time before
     * the scene's frame and the frame time after it, but only while
     * debugging; the scene's frame runs either way and leaves the scene
     * exactly as `ZenScene.Animate` does.
     */
    method WrappedAnimate(scene: ZenScene, reading: real, sin: real -> real, beginNow: real, endNow: real)
      requires Valid() && scene.Valid() && IsSine(sin)
      modifies this`stats, scene`ripples, scene`frameDeltas, scene.time, scene.mandalas, scene.energyCenters, scene.sacredGeometry
      ensures Valid() && scene.Valid()
      ensures active == old(active)
      ensures active ==> stats == Some(Stats(Some(beginNow), Some(endNow - beginNow)))
      ensures !active ==> stats == old(stats)
      ensures scene.time.elapsed == reading && scene.time.delta == reading - old(scene.time.previous)
      ensures scene.time.deltas == old(scene.time.deltas) + [scene.time.delta]
      ensures scene.frameDeltas == old(scene.frameDeltas) + [scene.time.delta]
      ensures forall i :: 0 <= i < scene.mandalas.Length ==>
                scene.mandalas[i] == MandalaStep(old(scene.mandalas[i]), reading, scene.time.delta, sin)
      ensures forall i :: 0 <= i < scene.energyCenters.Length ==>
                scene.energyCenters[i] == CenterStep(old(scene.energyCenters[i]), reading, sin)
      ensures forall i :: 0 <= i < scene.sacredGeometry.Length ==>
                scene.sacredGeometry[i] == SacredStep(old(scene.sacredGeometry[i]), reading, scene.time.delta, sin)
      ensures Ripples.Durable(old(scene.ripples)) && scene.ripples == Ripples.Sweep(old(scene.ripples), reading)
    {
      BeginFrame(beginNow);
      scene.Animate(reading, sin);
      EndFrame(endNow);
    }
  }
}
