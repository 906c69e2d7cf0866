/** The pure arithmetic of script.js's scene: how the smoothed progress p
    becomes the camera's and the layers' transforms in animate, and where
    the static-screen overlay sits on the backdrop plane. */
module Transforms {

  /** cameraStart.z and cameraEnd.z: the dolly runs from 800 to 200. */
  const CameraStartZ: real := 800.0
  const CameraEndZ: real := 200.0

  /** Near and far clipping distances of the perspective camera. */
  const Near: real := 1.0
  const Far: real := 2000.0

  /** Z of the backdrop plane, and the overlay's Z before the first frame. */
  const BackdropZ: real := 0.0
  const ScreenRestZ: real := 1.0

  /** Fractions of the backdrop plane that place the overlay on the
      photographed television's screen. */
  const ScreenWidthFraction: real := 0.175
  const ScreenHeightFraction: real := 0.20
  const ScreenXFraction: real := -0.022
  const ScreenYFraction: real := 0.175

  /** Camera Z: a linear dolly from the start anchor at p = 0 to the end
      anchor at p = 1. */
  function CameraZ(p: real): (z: real)
    ensures z == 800.0 - 600.0 * p
    ensures p == 0.0 ==> z == CameraStartZ
    ensures p == 1.0 ==> z == CameraEndZ
    ensures 0.0 <= p <= 1.0 ==> CameraEndZ <= z <= CameraStartZ
  {
    CameraStartZ + (CameraEndZ - CameraStartZ) * p
  }

  /** Scale of the backdrop layer: grows to 1.3 as the camera closes in. */
  function BackgroundScale(p: real): (s: real)
    ensures p == 0.0 ==> s == 1.0
    ensures 0.0 <= p <= 1.0 ==> 1.0 <= s <= 1.3
  {
    1.0 + p * 0.3
  }

  /** Z of the overlay: it moves toward the camera, from 1 to 51, and stays
      in front of the backdrop. */
  function ScreenZ(p: real): (z: real)
    ensures p == 0.0 ==> z == ScreenRestZ
    ensures 0.0 <= p <= 1.0 ==> 1.0 <= z <= 51.0
    ensures p >= 0.0 ==> z > BackdropZ
  {
    1.0 + p * 50.0
  }

  /** Scale of the overlay: from 1 to 1.5, never smaller than the backdrop's
      scale (the screen grows faster, a parallax cue). */
  function ScreenScale(p: real): (s: real)
    ensures p == 0.0 ==> s == 1.0
    ensures 0.0 <= p <= 1.0 ==> 1.0 <= s <= 1.5
    ensures p >= 0.0 ==> s >= BackgroundScale(p)
  {
    1.0 + p * 0.5
  }

  /** The camera moves forward strictly as p grows, while both layers' Z
      and scale never decrease. */
  lemma TransformsMonotone(p: real, q: real)
    requires p < q
    ensures CameraZ(q) < CameraZ(p)
    ensures BackgroundScale(p) < BackgroundScale(q)
    ensures ScreenZ(p) < ScreenZ(q)
    ensures ScreenScale(p) < ScreenScale(q)
  {
  }

  /** Over the whole dolly the overlay stays at least the near distance in
      front of the camera and the backdrop within the far distance. */
  lemma DollyStaysInFrustum(p: real)
    requires 0.0 <= p <= 1.0
    ensures CameraZ(p) - ScreenZ(p) >= Near
    ensures CameraZ(p) - BackdropZ <= Far
  {
  }

  /** A rectangle in the backdrop's plane: size and centre. */
  datatype Rect = Rect(width: real, height: real, x: real, y: real)

  /** Both sizes of the backdrop plane and the overlay placed on it. */
  datatype Layout = Layout(planeWidth: real, planeHeight: real, screen: Rect)

  /** The overlay's rectangle as createStaticScreen computes it. For a plane
      of positive size it lies inside the plane, a little left of centre and
      in its upper half. */
  function ScreenRect(planeWidth: real, planeHeight: real): (r: Rect)
    ensures planeWidth > 0.0 && planeHeight > 0.0 ==>
      0.0 < r.width < planeWidth && 0.0 < r.height < planeHeight &&
      -planeWidth / 2.0 <= r.x - r.width / 2.0 && r.x + r.width / 2.0 <= planeWidth / 2.0 &&
      -planeHeight / 2.0 <= r.y - r.height / 2.0 && r.y + r.height / 2.0 <= planeHeight / 2.0 &&
      r.x < 0.0 && r.y > 0.0
  {
    Rect(planeWidth * ScreenWidthFraction, planeHeight * ScreenHeightFraction,
         planeWidth * ScreenXFraction, planeHeight * ScreenYFraction)
  }

  /** The overlay follows the plane: scaling the plane by k scales its
      rectangle, size and position, by k. */
  lemma ScreenRectScales(planeWidth: real, planeHeight: real, k: real)
    ensures var r, s := ScreenRect(planeWidth, planeHeight), ScreenRect(k * planeWidth, k * planeHeight);
      s == Rect(k * r.width, k * r.height, k * r.x, k * r.y)
  {
  }

  /** The layout computed when the scene layers are loaded: the plane is as
      wide as its height times the viewport's aspect ratio. */
  function LoadLayout(planeHeight: real, innerWidth: real, innerHeight: real): (l: Layout)
    requires innerHeight > 0.0
    ensures l.planeHeight == planeHeight
    ensures l.planeWidth * innerHeight == planeHeight * innerWidth
    ensures l.screen == ScreenRect(l.planeWidth, l.planeHeight)
  {
    var planeWidth := planeHeight * (innerWidth / innerHeight);
    Layout(planeWidth, planeHeight, ScreenRect(planeWidth, planeHeight))
  }

  /** The layout onWindowResize computes: the camera's aspect first, then
      the plane width from it, and the overlay's rectangle written out again
      with the same four fractions. */
  function ResizeLayout(planeHeight: real, innerWidth: real, innerHeight: real): (l: Layout)
    requires innerHeight > 0.0
    ensures l.planeHeight == planeHeight
    ensures l.planeWidth * innerHeight == planeHeight * innerWidth
    ensures l.screen == ScreenRect(l.planeWidth, l.planeHeight)
  {
    var aspect := innerWidth / innerHeight;
    var planeWidth := planeHeight * aspect;
    var screenWidth := planeWidth * 0.175;
    var screenHeight := planeHeight * 0.20;
    var screenX := planeWidth * -0.022;
    var screenY := planeHeight * 0.175;
    Layout(planeWidth, planeHeight, Rect(screenWidth, screenHeight, screenX, screenY))
  }

  /** Resizing to the viewport the layers were loaded with reproduces the
      loaded layout exactly. */
  lemma ResizeMatchesLoad(planeHeight: real, innerWidth: real, innerHeight: real)
    requires innerHeight > 0.0
    ensures ResizeLayout(planeHeight, innerWidth, innerHeight)
            == LoadLayout(planeHeight, innerWidth, innerHeight)
  {
  }
}
