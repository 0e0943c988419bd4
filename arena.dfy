/** The walled arena of src/main.rs and the keyboard-driven character that is
    kept inside it. */
module Arena {
  import opened Geometry
  import opened Scene
  import opened Input

  const CharacterStartingPosition: Vec3 := Vec3(0.0, 0.0, 1.0)
  const CharacterDiameter: real := 50.0
  const CharacterSpeed: real := 400.0

  const WallThickness: real := 10.0
  /** x coordinates of the side walls' centre lines. */
  const LeftWall: real := -450.0
  const RightWall: real := 450.0
  /** y coordinates of the bottom and top walls' centre lines. */
  const BottomWall: real := -300.0
  const TopWall: real := 300.0

  /** The distance between the centre lines of opposite walls. The source
      asserts both are positive before it sizes a wall. */
  function ArenaHeight(): (h: real)
    ensures 0.0 < h
  {
    TopWall - BottomWall
  }

  function ArenaWidth(): (w: real)
    ensures 0.0 < w
  {
    RightWall - LeftWall
  }

  datatype WallLocation = Left | Right | Bottom | Top
  {
    /** The centre of the wall: the side walls sit on the x axis, the bottom
        and top walls on the y axis. */
    function Position(): (p: Vec2)
      ensures (this.Left? || this.Right?) <==> p.y == 0.0
      ensures (this.Bottom? || this.Top?) <==> p.x == 0.0
    {
      match this
      case Left => Vec2(LeftWall, 0.0)
      case Right => Vec2(RightWall, 0.0)
      case Bottom => Vec2(0.0, BottomWall)
      case Top => Vec2(0.0, TopWall)
    }

    /** The wall's extent: the side walls are one thickness wide and span the
        arena's height, the others span its width; each is one thickness
        longer than the distance between the centre lines it joins. */
    function Size(): (s: Vec2)
      ensures 0.0 < s.x && 0.0 < s.y
      ensures (this.Left? || this.Right?) <==> s.x < s.y
      ensures (this.Bottom? || this.Top?) <==> s.y < s.x
    {
      match this
      case Left | Right => Vec2(WallThickness, ArenaHeight() + WallThickness)
      case Bottom | Top => Vec2(ArenaWidth() + WallThickness, WallThickness)
    }

    /** The wall's rectangle, as its lowest and highest x and y. */
    function MinCorner(): Vec2
    {
      Vec2(Position().x - Size().x / 2.0, Position().y - Size().y / 2.0)
    }

    function MaxCorner(): Vec2
    {
      Vec2(Position().x + Size().x / 2.0, Position().y + Size().y / 2.0)
    }
  }

  /** Each wall sits on its own centre line, so no two walls share a position. */
  lemma PositionInjective(a: WallLocation, b: WallLocation)
    ensures a.Position() == b.Position() <==> a == b
  {
  }

  /** The four walls close the arena: the side walls reach exactly to the
      outer faces of the bottom and top walls, and those reach exactly to the
      outer faces of the side walls, so every corner is filled. */
  lemma WallsMeetAtCorners()
    ensures Left.MinCorner().y == Bottom.MinCorner().y && Left.MaxCorner().y == Top.MaxCorner().y
    ensures Right.MinCorner().y == Bottom.MinCorner().y && Right.MaxCorner().y == Top.MaxCorner().y
    ensures Bottom.MinCorner().x == Left.MinCorner().x && Bottom.MaxCorner().x == Right.MaxCorner().x
    ensures Top.MinCorner().x == Left.MinCorner().x && Top.MaxCorner().x == Right.MaxCorner().x
  {
  }

  /** The Wall::new transform: the wall's centre at depth 0, its size as the
      x and y scale of a unit sprite, and z scale 1. */
  method NewWall(location: WallLocation) returns (t: Transform)
    ensures fresh(t)
    ensures t.translation == Vec3(location.Position().x, location.Position().y, 0.0)
    ensures t.scale == Vec3(location.Size().x, location.Size().y, 1.0)
  {
    var position := location.Position();
    var size := location.Size();
    t := new Transform(Vec3(position.x, position.y, 0.0), Vec3(size.x, size.y, 1.0));
  }

  /** The range the character's centre may take: a wall's inner face, moved
      inwards by the character's radius. */
  const LeftBound: real := LeftWall + WallThickness / 2.0 + CharacterDiameter / 2.0
  const RightBound: real := RightWall - WallThickness / 2.0 - CharacterDiameter / 2.0
  const TopBound: real := TopWall - WallThickness / 2.0 - CharacterDiameter / 2.0
  const BottomBound: real := BottomWall + WallThickness / 2.0 + CharacterDiameter / 2.0

  predicate InBounds(x: real, y: real)
  {
    LeftBound <= x <= RightBound && BottomBound <= y <= TopBound
  }

  /** The bounds are well ordered, and a character centred anywhere inside
      them touches no wall: its disc stays within the walls' inner faces. */
  lemma BoundsClearWalls(x: real, y: real)
    ensures LeftBound < RightBound && BottomBound < TopBound
    ensures InBounds(x, y) ==>
      Left.MaxCorner().x <= x - CharacterDiameter / 2.0 &&
      x + CharacterDiameter / 2.0 <= Right.MinCorner().x &&
      Bottom.MaxCorner().y <= y - CharacterDiameter / 2.0 &&
      y + CharacterDiameter / 2.0 <= Top.MinCorner().y
  {
  }

  /** The character starts inside the bounds. */
  lemma StartInBounds()
    ensures InBounds(CharacterStartingPosition.x, CharacterStartingPosition.y)
  {
  }

  /** `x.clamp(lo, hi)`: lo below the range, hi above it, x inside it. The
      engine's clamp panics when lo > hi, so callers must order the bounds. */
  function Clamp(x: real, lo: real, hi: real): (r: real)
    requires lo <= hi
    ensures lo <= r <= hi
    ensures lo <= x <= hi ==> r == x
    ensures x < lo ==> r == lo
    ensures hi < x ==> r == hi
  {
    if x < lo then lo else if hi < x then hi else x
  }

  /** The clamped value is the point of the range nearest to x. */
  lemma ClampNearest(x: real, lo: real, hi: real, y: real)
    requires lo <= hi && lo <= y <= hi
    ensures Abs(Clamp(x, lo, hi) - x) <= Abs(y - x)
  {
  }

  /** `move_character`: the keys move the character CharacterSpeed * dt along
      the normalised direction, then each coordinate is clamped into the
      bounds. The depth and the scale are not touched. */
  method MoveCharacter(keys: Keys, transform: Transform, dt: real, sqrt: real -> real)
    modifies transform
    ensures var step := KeyStep(keys, CharacterSpeed, dt, sqrt);
      transform.translation == Vec3(
        Clamp(old(transform.translation.x) + step.x, LeftBound, RightBound),
        Clamp(old(transform.translation.y) + step.y, BottomBound, TopBound),
        old(transform.translation.z))
    ensures InBounds(transform.translation.x, transform.translation.y)
    ensures transform.scale == old(transform.scale)
  {
    var direction := KeyDirection(keys);
    assert direction == RawDirection(keys);
    StepAndClamp(direction, transform, dt, sqrt);
  }

  /** The second half of `move_character`, for any raw direction: normalise
      it, displace the translation by it times CharacterSpeed * dt, and clamp
      each coordinate into the bounds declared above (the source computes the
      same four bound expressions locally). */
  method StepAndClamp(direction: Vec2, transform: Transform, dt: real, sqrt: real -> real)
    modifies transform
    ensures var step := DirectedStep(direction, CharacterSpeed, dt, sqrt);
      transform.translation == Vec3(
        Clamp(old(transform.translation.x) + step.x, LeftBound, RightBound),
        Clamp(old(transform.translation.y) + step.y, BottomBound, TopBound),
        old(transform.translation.z))
    ensures transform.scale == old(transform.scale)
  {
    DirectedStepComponents(direction, CharacterSpeed, dt, sqrt);
    var unit := NormalizeOrZero(direction, sqrt);
    var translation := transform.translation;

    var newPosition := Vec2(
      translation.x + unit.x * CharacterSpeed * dt,
      translation.y + unit.y * CharacterSpeed * dt);

    translation := translation.(x := Clamp(newPosition.x, LeftBound, RightBound));
    translation := translation.(y := Clamp(newPosition.y, BottomBound, TopBound));
    transform.translation := translation;
  }
}
