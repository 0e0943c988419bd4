/** The player of src/player.rs: keyboard movement with no bounds, and the
    sightline that reaches from the player towards the cursor. */
module Player {
  import opened Geometry
  import opened Scene
  import opened Input

  const PlayerSpeed: real := 400.0
  const SightlineLength: real := 200.0

  /** `move_player`: the keys move the player PlayerSpeed * dt along the
      normalised direction. Nothing bounds the move, and only x and y of the
      translation change. */
  method MovePlayer(keys: Keys, transform: Transform, dt: real, sqrt: real -> real)
    modifies transform
    ensures var step := KeyStep(keys, PlayerSpeed, dt, sqrt);
      transform.translation == Vec3(
        old(transform.translation.x) + step.x,
        old(transform.translation.y) + step.y,
        old(transform.translation.z))
    ensures transform.scale == old(transform.scale)
  {
    var direction := KeyDirection(keys);
    assert direction == RawDirection(keys);
    Displace(direction, transform, dt, sqrt);
  }

  /** With no net direction the player stays put: a position moved by the
      step of keys that cancel out is unchanged. */
  lemma IdleKeysKeepPosition(keys: Keys, dt: real, sqrt: real -> real, p: Vec3)
    requires IsSqrt(sqrt)
    ensures keys.up == keys.down && keys.left == keys.right ==>
      var step := KeyStep(keys, PlayerSpeed, dt, sqrt);
      Vec3(p.x + step.x, p.y + step.y, p.z) == p
  {
    KeyStepSpec(keys, PlayerSpeed, dt, sqrt);
  }

  /** The second half of `move_player`, for any raw direction: normalise it
      and add it times PlayerSpeed * dt to x and y of the translation. */
  method Displace(direction: Vec2, transform: Transform, dt: real, sqrt: real -> real)
    modifies transform
    ensures var step := DirectedStep(direction, PlayerSpeed, dt, sqrt);
      transform.translation == Vec3(
        old(transform.translation.x) + step.x,
        old(transform.translation.y) + step.y,
        old(transform.translation.z))
    ensures transform.scale == old(transform.scale)
  {
    DirectedStepComponents(direction, PlayerSpeed, dt, sqrt);
    var unit := NormalizeOrZero(direction, sqrt);
    var translation := transform.translation;
    var newPosition := Vec2(
      translation.x + unit.x * PlayerSpeed * dt,
      translation.y + unit.y * PlayerSpeed * dt);
    translation := translation.(x := newPosition.x);
    translation := translation.(y := newPosition.y);
    transform.translation := translation;
  }

  /** The cursor in centred coordinates: the window's centre is the origin
      and y grows upwards, as in the world. */
  function CentredCursor(window: Window, position: Vec2): Vec2
  {
    Vec2(position.x - window.width / 2.0, window.height / 2.0 - position.y)
  }

  /** From centred coordinates back to the window's own. */
  function WindowPosition(window: Window, m: Vec2): Vec2
  {
    Vec2(m.x + window.width / 2.0, window.height / 2.0 - m.y)
  }

  /** Centring is a bijection between window and centred coordinates. */
  lemma CentringRoundTrip(window: Window, position: Vec2, m: Vec2)
    ensures WindowPosition(window, CentredCursor(window, position)) == position
    ensures CentredCursor(window, WindowPosition(window, m)) == m
  {
  }

  /** The window's centre becomes the origin; x keeps its direction and y is
      flipped. */
  lemma CentringOrientation(window: Window, p: Vec2, q: Vec2)
    ensures CentredCursor(window, Vec2(window.width / 2.0, window.height / 2.0)) == Vec2(0.0, 0.0)
    ensures p.x < q.x <==> CentredCursor(window, p).x < CentredCursor(window, q).x
    ensures p.y < q.y <==> CentredCursor(window, q).y < CentredCursor(window, p).y
  {
  }

  /** `sqrt(dy * dy + dx * dx).min(SIGHTLINE_LENGTH)`: the distance from the
      player to the mouse, capped at the sightline's length. */
  function SightlineReach(mouse: Vec2, player: Vec3, sqrt: real -> real): real
  {
    var dy := mouse.y - player.y;
    var dx := mouse.x - player.x;
    Min(sqrt(Sq(dy) + Sq(dx)), SightlineLength)
  }

  /** The reach lies between 0 and SightlineLength. It is the distance to the
      mouse when that is within SightlineLength, and SightlineLength beyond. */
  lemma SightlineReachSpec(mouse: Vec2, player: Vec3, sqrt: real -> real)
    requires IsSqrt(sqrt)
    ensures var c := SightlineReach(mouse, player, sqrt);
      0.0 <= c <= SightlineLength
    ensures var c := SightlineReach(mouse, player, sqrt);
      var d := Length(Vec2(mouse.x - player.x, mouse.y - player.y), sqrt);
      (d <= SightlineLength ==> c == d) && (SightlineLength < d ==> c == SightlineLength)
  {
    var dx, dy := mouse.x - player.x, mouse.y - player.y;
    assert Sq(dy) + Sq(dx) == Sq(dx) + Sq(dy);
    LengthSign(Vec2(dx, dy), sqrt);
  }

  /** The sightline's reach this frame: present when there is exactly one
      window and the cursor is inside it. */
  function SightlineTarget(windows: seq<Window>, player: Vec3, sqrt: real -> real): Option<real>
  {
    if |windows| == 1 && windows[0].cursor.Some? then
      Some(SightlineReach(CentredCursor(windows[0], windows[0].cursor.value), player, sqrt))
    else
      None
  }

  /** `move_sightline`, without the rotation of the pivot: with one window
      holding the cursor, one pivot and one line mesh, the mesh (a unit
      square) is stretched along x to the reach and moved by half of it, so
      the line runs from the pivot at 0 to the reach. Otherwise nothing
      changes. `player` is the player's global translation. */
  method MoveSightline(windows: seq<Window>, player: Vec3, pivots: seq<Transform>,
                       meshes: seq<Transform>, sqrt: real -> real)
    modifies meshes
    ensures |pivots| == 1 && |meshes| == 1 && SightlineTarget(windows, player, sqrt).Some? ==>
      var c := SightlineTarget(windows, player, sqrt).value;
      meshes[0].scale == old(meshes[0].scale).(x := c) &&
      meshes[0].translation == old(meshes[0].translation).(x := c * 0.5) &&
      meshes[0].translation.x - meshes[0].scale.x / 2.0 == 0.0 &&
      meshes[0].translation.x + meshes[0].scale.x / 2.0 == c
    ensures !(|pivots| == 1 && |meshes| == 1 && SightlineTarget(windows, player, sqrt).Some?) ==>
      unchanged(meshes)
  {
    if |windows| == 1 {
      var window := windows[0];
      match window.cursor
      case Some(position) =>
        var mouse := CentredCursor(window, position);
        var clamped := SightlineReach(mouse, player, sqrt);
        if |pivots| == 1 && |meshes| == 1 {
          var mesh := meshes[0];
          mesh.scale := mesh.scale.(x := clamped);
          mesh.translation := mesh.translation.(x := clamped * 0.5);
        }
      case None =>
    }
  }
}
