/** The mutable state of script.js: the two scroll accumulators, the last
    touch position, the camera's Z and the two layer meshes, which exist
    only once the backdrop texture has loaded. */
module Scene {
  import opened Scroll
  import opened Smoothing
  import opened Transforms

  datatype Option<T> = None | Some(value: T)

  /** A plane mesh: geometry size, centre position and its x/y scale. */
  datatype Mesh = Mesh(width: real, height: real, x: real, y: real, z: real, scale: real)

  /** The backdrop mesh for a layout, at the origin and unscaled. */
  function BackdropMesh(l: Layout): Mesh
  {
    Mesh(l.planeWidth, l.planeHeight, 0.0, 0.0, BackdropZ, 1.0)
  }

  /** The overlay mesh for a layout, just in front of the backdrop. */
  function ScreenMesh(l: Layout): Mesh
  {
    Mesh(l.screen.width, l.screen.height, l.screen.x, l.screen.y, ScreenRestZ, 1.0)
  }

  class CinematicScene {
    /** targetScrollProgress: set at once by scroll input. */
    var target: real
    /** scrollProgress: eased toward the target once per frame. */
    var current: real
    /** The clientY the last touch event reported. */
    var touchStartY: real
    /** camera.position.z */
    var cameraZ: real
    /** bgLayer and screenMesh; None until the texture has loaded. */
    var bgLayer: Option<Mesh>
    var screenMesh: Option<Mesh>

    /** Both progress values stay in [0, 1], so every transform stays in the
        range its function promises for that interval; the two meshes exist
        together, and the overlay always sits on the backdrop at the fixed
        fractions of its plane. */
    ghost predicate Valid()
      reads this
    {
      0.0 <= target <= 1.0 && 0.0 <= current <= 1.0 &&
      CameraEndZ <= cameraZ <= CameraStartZ &&
      (bgLayer.Some? ==> bgLayer.value.z == BackdropZ && 1.0 <= bgLayer.value.scale <= 1.3) &&
      (screenMesh.Some? ==> 1.0 <= screenMesh.value.z <= 51.0 && 1.0 <= screenMesh.value.scale <= 1.5) &&
      OverlayOnBackdrop()
    }

    /** The overlay's rectangle is ScreenRect of the backdrop's plane. */
    ghost predicate OverlayOnBackdrop()
      reads this
    {
      bgLayer.Some? == screenMesh.Some? &&
      (bgLayer.Some? ==>
        var b, s := bgLayer.value, screenMesh.value;
        Rect(s.width, s.height, s.x, s.y) == ScreenRect(b.width, b.height))
    }

    /** camera.position.z is the dolly position of the current progress.
        It holds from the start and after every event handler and frame;
        only Tick on its own, which is always followed by the camera update
        inside a frame, leaves it stale. */
    ghost predicate CameraSynced()
      reads this
    {
      cameraZ == CameraZ(current)
    }

    /** The state at page load: nothing scrolled, the camera at its start
        anchor, no layers yet. */
    constructor ()
      ensures Valid() && CameraSynced()
      ensures target == 0.0 && current == 0.0 && touchStartY == 0.0
      ensures cameraZ == CameraStartZ
      ensures bgLayer == None && screenMesh == None
    {
      target, current, touchStartY := 0.0, 0.0, 0.0;
      cameraZ := CameraStartZ;
      bgLayer, screenMesh := None, None;
    }

    /** The texture's load callback: creates the backdrop for the plane
        computed when loading began (height times the viewport's aspect) and
        the overlay createStaticScreen places on it. */
    method LayersLoaded(planeHeight: real, innerWidth: real, innerHeight: real)
      requires Valid() && innerHeight > 0.0
      modifies this`bgLayer, this`screenMesh
      ensures Valid()
      ensures old(CameraSynced()) ==> CameraSynced()
      ensures bgLayer == Some(BackdropMesh(LoadLayout(planeHeight, innerWidth, innerHeight)))
      ensures screenMesh == Some(ScreenMesh(LoadLayout(planeHeight, innerWidth, innerHeight)))
    {
      var planeWidth := planeHeight * (innerWidth / innerHeight);
      bgLayer := Some(Mesh(planeWidth, planeHeight, 0.0, 0.0, BackdropZ, 1.0));
      var r := ScreenRect(planeWidth, planeHeight);
      screenMesh := Some(Mesh(r.width, r.height, r.x, r.y, ScreenRestZ, 1.0));
    }

    /** handleScroll: accumulate the delta into the target and clamp it. */
    method HandleScroll(deltaY: real)
      requires Valid()
      modifies this`target
      ensures Valid()
      ensures old(CameraSynced()) ==> CameraSynced()
      ensures target == NextTarget(old(target), deltaY)
    {
      target := target + deltaY * WheelSensitivity;
      target := Max(0.0, Min(1.0, target));
    }

    /** The wheel handler passes the event's deltaY through unchanged. */
    method OnWheel(deltaY: real)
      requires Valid()
      modifies this`target
      ensures Valid()
      ensures old(CameraSynced()) ==> CameraSynced()
      ensures target == NextTarget(old(target), deltaY)
    {
      HandleScroll(deltaY);
    }

    /** touchstart records where the finger came down. */
    method TouchStart(clientY: real)
      requires Valid()
      modifies this`touchStartY
      ensures Valid()
      ensures old(CameraSynced()) ==> CameraSynced()
      ensures touchStartY == clientY
    {
      touchStartY := clientY;
    }

    /** touchmove scrolls by twice the distance moved since the last touch
        event and remembers the new position. */
    method TouchMove(clientY: real)
      requires Valid()
      modifies this`target, this`touchStartY
      ensures Valid()
      ensures old(CameraSynced()) ==> CameraSynced()
      ensures touchStartY == clientY
      ensures target == NextTarget(old(target), TouchDelta(old(touchStartY), clientY))
    {
      var deltaY := touchStartY - clientY;
      touchStartY := clientY;
      HandleScroll(deltaY * 2.0);
    }

    /** The smoothing step of one frame; the target is left alone. */
    method Tick()
      requires Valid()
      modifies this`current
      ensures Valid()
      ensures current == Ease(old(current), target)
    {
      current := current + (target - current) * 0.05;
    }

    /** One animation frame: ease the progress, then move the camera and
        the layers that exist to the transforms of the new progress. */
    method Animate()
      requires Valid()
      modifies this`current, this`cameraZ, this`bgLayer, this`screenMesh
      ensures Valid()
      ensures current == Ease(old(current), target)
      ensures CameraSynced()
      ensures bgLayer == if old(bgLayer).Some?
        then Some(old(bgLayer).value.(scale := BackgroundScale(current))) else None
      ensures screenMesh == if old(screenMesh).Some?
        then Some(old(screenMesh).value.(z := ScreenZ(current), scale := ScreenScale(current))) else None
      ensures screenMesh.Some? ==> cameraZ - screenMesh.value.z >= Near
    {
      Tick();
      cameraZ := CameraStartZ + (CameraEndZ - CameraStartZ) * current;
      if bgLayer.Some? {
        var bgScale := 1.0 + current * 0.3;
        bgLayer := Some(bgLayer.value.(scale := bgScale));
      }
      if screenMesh.Some? {
        var screenZ := 1.0 + current * 50.0;
        var screenScale := 1.0 + current * 0.5;
        screenMesh := Some(screenMesh.value.(z := screenZ, scale := screenScale));
      }
      DollyStaysInFrustum(current);
    }

    /** onWindowResize: rebuild both geometries for the new viewport and
        move the overlay; Z and scale are left to the next frame. */
    method OnResize(planeHeight: real, innerWidth: real, innerHeight: real)
      requires Valid() && innerHeight > 0.0
      modifies this`bgLayer, this`screenMesh
      ensures Valid()
      ensures old(CameraSynced()) ==> CameraSynced()
      ensures var l := ResizeLayout(planeHeight, innerWidth, innerHeight);
        bgLayer == (if old(bgLayer).Some?
          then Some(old(bgLayer).value.(width := l.planeWidth, height := l.planeHeight)) else None) &&
        screenMesh == (if old(screenMesh).Some?
          then Some(old(screenMesh).value.(width := l.screen.width, height := l.screen.height,
                                           x := l.screen.x, y := l.screen.y)) else None)
    {
      var aspect := innerWidth / innerHeight;
      var planeWidth := planeHeight * aspect;
      ghost var l := ResizeLayout(planeHeight, innerWidth, innerHeight);
      assert l.planeWidth == planeWidth;
      if bgLayer.Some? {
        bgLayer := Some(bgLayer.value.(width := planeWidth, height := planeHeight));
      }
      if screenMesh.Some? {
        var screenWidth := planeWidth * 0.175;
        var screenHeight := planeHeight * 0.20;
        var screenX := planeWidth * -0.022;
        var screenY := planeHeight * 0.175;
        screenMesh := Some(screenMesh.value.(width := screenWidth, height := screenHeight,
                                             x := screenX, y := screenY));
      }
    }
  }
}
