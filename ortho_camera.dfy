/** The level editor's top-down camera (OrthoCamera): an orthographic view
    straight down on the map, panned by the arrow keys and zoomed by the
    mouse wheel. The projection and view matrices and the un-projection of
    a click are matrix numerics and are not modelled. */
module OrthoCameras {
  import opened Common

  /** How far a pan of (dx, dy) over time moves the camera when the view is
      width by height: three twentieths of the view per unit of input and
      time, along each axis. */
  function PanDelta(dx: real, dy: real, time: real, width: real, height: real): Vec3
  {
    Vec3(dx * 3.0 * width / 20.0 * time, dy * 3.0 * height / 20.0 * time, 0.0)
  }

  /** Panning back by the opposite input over the same time, with the same
      view, undoes a pan. */
  lemma PanReverses(p: Vec3, dx: real, dy: real, time: real, width: real, height: real)
    ensures p.Plus(PanDelta(dx, dy, time, width, height)).Plus(PanDelta(-dx, -dy, time, width, height)) == p
  {
  }

  /** A pan moves the camera a fixed fraction of the view: over unit time a
      unit input crosses 3/20 of the view's width or height. */
  lemma PanIsFractionOfView(width: real, height: real)
    ensures PanDelta(1.0, 0.0, 1.0, width, height) == Vec3(0.15 * width, 0.0, 0.0)
    ensures PanDelta(0.0, 1.0, 1.0, width, height) == Vec3(0.0, 0.15 * height, 0.0)
  {
  }

  class OrthoCamera {
    var position: Vec3
    const aspectRatio: real
    const nearClip: real
    const farClip: real
    const zoomSensitivity: real := 0.5
    const moveSpeed: real := 3.0
    var height: real

    /** The view's height in world units. */
    function Height(): real
      reads this
    {
      height
    }

    /** The view's width: the aspect ratio times the height. */
    function Width(): real
      reads this
    {
      aspectRatio * height
    }

    function GetFarPlane(): real
    {
      farClip
    }

    function GetNearPlane(): real
    {
      nearClip
    }

    function GetWorldSpacePos(): Vec3
      reads this
    {
      position
    }

    /** OrthoCamera(pos, aspectRatio, nearClip, farClip): the given position
        and clip planes, a view one unit high, zoom sensitivity 0.5 and move
        speed 3. */
    constructor (pos: Vec3, aspectRatio: real, nearClip: real, farClip: real)
      ensures GetWorldSpacePos() == pos && GetNearPlane() == nearClip && GetFarPlane() == farClip
      ensures Height() == 1.0 && Width() == aspectRatio
    {
      position := pos;
      this.nearClip := nearClip;
      this.farClip := farClip;
      this.aspectRatio := aspectRatio;
      height := 1.0;
    }

    /** move: the camera pans by PanDelta for the current view; its height
        above the map is unchanged. */
    method Move(dx: real, dy: real, time: real)
      modifies this
      ensures GetWorldSpacePos() == old(GetWorldSpacePos()).Plus(PanDelta(dx, dy, time, old(Width()), old(Height())))
      ensures GetWorldSpacePos().z == old(GetWorldSpacePos()).z
      ensures height == old(height)
    {
      var w, h := Width(), Height();
      position := position.(x := position.x + dx * moveSpeed * w / 20.0 * time);
      position := position.(y := position.y + dy * moveSpeed * h / 20.0 * time);
    }

    /** elevate: the wheel changes the view's height by half its input,
        kept within [1, 100]; the time is not used and the position is
        unchanged. */
    method Elevate(dz: real, time: real)
      modifies this
      ensures 1.0 <= Height() <= 100.0
      ensures 1.0 <= old(height) + dz * 0.5 <= 100.0 ==> Height() == old(height) + dz * 0.5
      ensures old(height) + dz * 0.5 < 1.0 ==> Height() == 1.0
      ensures old(height) + dz * 0.5 > 100.0 ==> Height() == 100.0
      ensures position == old(position)
    {
      height := height + dz * zoomSensitivity;
      height := Max(Min(height, 100.0), 1.0);
    }
  }
}
