/**
 * The decision rule of MoveSubAudioSourceToNeededLocation. The target point
 * (the emitter's position seen from the channel's virtual listener, carried
 * over into the main listener's frame) comes out of engine transforms and is
 * an input here; what is modelled is when the channel moves and where to.
 */
module Relocation {

  datatype Vec3 = Vec3(x: real, y: real, z: real)

  function Plus(a: Vec3, b: Vec3): Vec3 {
    Vec3(a.x + b.x, a.y + b.y, a.z + b.z)
  }

  function Minus(a: Vec3, b: Vec3): Vec3 {
    Vec3(a.x - b.x, a.y - b.y, a.z - b.z)
  }

  function SqrMagnitude(v: Vec3): real {
    v.x * v.x + v.y * v.y + v.z * v.z
  }

  /** Translate only when there is a main listener and the correction is longer than one unit. */
  predicate ShouldTranslate(hasMainListener: bool, delta: Vec3) {
    hasMainListener && SqrMagnitude(delta) > 1.0
  }

  /**
   * The channel's position after relocation from `position` towards `target`:
   * it lands exactly on the target when it moves, and stays put inside the
   * dead zone or when there is no main listener. The engine translates in the
   * channel's own frame; landing on the target takes that frame to be an
   * unrotated, unparented one, as it is for the hidden sub audio sources.
   */
  function Relocated(hasMainListener: bool, position: Vec3, target: Vec3): (r: Vec3)
    ensures r == target || r == position
    ensures ShouldTranslate(hasMainListener, Minus(target, position)) ==> r == target
    ensures !hasMainListener ==> r == position
    ensures SqrMagnitude(Minus(target, position)) <= 1.0 ==> r == position
  {
    var delta := Minus(target, position);
    if ShouldTranslate(hasMainListener, delta) then Plus(position, delta) else position
  }

  /** With a main listener, a channel ends up within one unit of its target after relocation. */
  lemma RelocatedWithinDeadZone(position: Vec3, target: Vec3)
    ensures SqrMagnitude(Minus(target, Relocated(true, position, target))) <= 1.0
  {
    var r := Relocated(true, position, target);
    if r == target {
      assert Minus(target, r) == Vec3(0.0, 0.0, 0.0);
    }
  }

  /** Relocating a second time in the same place does nothing. */
  lemma RelocatedIdempotent(hasMainListener: bool, position: Vec3, target: Vec3)
    ensures var r := Relocated(hasMainListener, position, target);
      Relocated(hasMainListener, r, target) == r
  {
    var r := Relocated(hasMainListener, position, target);
    if hasMainListener {
      RelocatedWithinDeadZone(position, target);
    }
  }
}
