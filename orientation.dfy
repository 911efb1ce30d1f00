/**
  The orientation vocabulary of the camera preview view: the seven orientations
  the device reports (UIDeviceOrientation), the four orientations a capture
  connection accepts (AVCaptureVideoOrientation), and the fixed table from the
  first to the second that the view consults whenever it is asked to update.
 */
module Orientation {

  datatype Option<T> = None | Some(value: T)

  /** Which edge of the picture the home button sits on. */
  datatype Side = Bottom | Top | Left | Right

  /** The orientations the device reports. */
  datatype DeviceOrientation =
    | Unknown
    | Portrait
    | PortraitUpsideDown
    | LandscapeLeft
    | LandscapeRight
    | FaceUp
    | FaceDown
  {
    /** Held upright, either way up. */
    predicate IsPortrait() {
      Portrait? || PortraitUpsideDown?
    }

    /** Held on its side, either way round. */
    predicate IsLandscape() {
      LandscapeLeft? || LandscapeRight?
    }

    /** The framework's own description of each case: where the home button is
        when the device is held this way. Lying flat or unknown has no side.
        Device "landscape left" has the home button on the RIGHT. */
    function HomeButton(): Option<Side> {
      match this
      case Portrait => Some(Bottom)
      case PortraitUpsideDown => Some(Top)
      case LandscapeLeft => Some(Right)
      case LandscapeRight => Some(Left)
      case Unknown => None
      case FaceUp => None
      case FaceDown => None
    }
  }

  /** The orientations a capture connection can be set to. */
  datatype VideoOrientation =
    | Portrait
    | PortraitUpsideDown
    | LandscapeRight
    | LandscapeLeft
  {
    /** The framework's description of each case: video "landscape left" has
        the home button on the LEFT, the opposite of the device's naming. */
    function HomeButton(): Side {
      match this
      case Portrait => Bottom
      case PortraitUpsideDown => Top
      case LandscapeRight => Right
      case LandscapeLeft => Left
    }
  }

  const AllVideoOrientations: set<VideoOrientation> :=
    {VideoOrientation.Portrait, VideoOrientation.PortraitUpsideDown,
     VideoOrientation.LandscapeRight, VideoOrientation.LandscapeLeft}

  /** The view's orientation table: portraits map to themselves, the two
      landscapes are swapped. */
  const OrientationMap: map<DeviceOrientation, VideoOrientation> := map[
    DeviceOrientation.Portrait := VideoOrientation.Portrait,
    DeviceOrientation.PortraitUpsideDown := VideoOrientation.PortraitUpsideDown,
    DeviceOrientation.LandscapeLeft := VideoOrientation.LandscapeRight,
    DeviceOrientation.LandscapeRight := VideoOrientation.LandscapeLeft
  ]

  /** Subscripting the table: an entry exactly for the upright and sideways
      orientations, and every entry keeps the home button on the same side of
      the picture. */
  function Lookup(d: DeviceOrientation): (r: Option<VideoOrientation>)
    ensures r.Some? <==> d.IsPortrait() || d.IsLandscape()
    ensures r.Some? ==> d.HomeButton() == Some(r.value.HomeButton())
  {
    if d in OrientationMap then Some(OrientationMap[d]) else None
  }

  /** The guard of the update: the table must have an entry AND the device must
      be upright or sideways. The second test never rejects what the first
      lets through, and only unknown, face up and face down are turned away. */
  function NewVideoOrientation(d: DeviceOrientation): (r: Option<VideoOrientation>)
    ensures r == Lookup(d)
    ensures r.None? <==> d == DeviceOrientation.Unknown || d == DeviceOrientation.FaceUp || d == DeviceOrientation.FaceDown
  {
    if d in OrientationMap && (d.IsPortrait() || d.IsLandscape()) then Some(OrientationMap[d]) else None
  }

  /** The connection's orientation after an update from d, given the one
      before: the table's entry when there is one, the old value otherwise. */
  function UpdatedVideoOrientation(d: DeviceOrientation, current: VideoOrientation): (r: VideoOrientation)
    ensures d in OrientationMap ==> r == OrientationMap[d]
    ensures d !in OrientationMap ==> r == current
  {
    match NewVideoOrientation(d)
    case Some(v) => v
    case None => current
  }

  /** The inverse of the table: the device orientation whose entry is v. */
  function DeviceFor(v: VideoOrientation): (d: DeviceOrientation)
    ensures d in OrientationMap && OrientationMap[d] == v
    ensures d.HomeButton() == Some(v.HomeButton())
  {
    match v
    case Portrait => DeviceOrientation.Portrait
    case PortraitUpsideDown => DeviceOrientation.PortraitUpsideDown
    case LandscapeRight => DeviceOrientation.LandscapeLeft
    case LandscapeLeft => DeviceOrientation.LandscapeRight
  }

  lemma PortraitsMapToThemselves()
    ensures OrientationMap[DeviceOrientation.Portrait] == VideoOrientation.Portrait
    ensures OrientationMap[DeviceOrientation.PortraitUpsideDown] == VideoOrientation.PortraitUpsideDown
  {
  }

  lemma LandscapesAreSwapped()
    ensures OrientationMap[DeviceOrientation.LandscapeLeft] == VideoOrientation.LandscapeRight
    ensures OrientationMap[DeviceOrientation.LandscapeRight] == VideoOrientation.LandscapeLeft
  {
  }

  /** The table has an entry for exactly the upright and sideways orientations,
      so the guard's isPortrait || isLandscape test never rejects a key. */
  lemma TableCoversPortraitAndLandscape()
    ensures forall d :: d in OrientationMap <==> d.IsPortrait() || d.IsLandscape()
  {
  }

  /** The table is a bijection from its four keys onto all four capture
      orientations, with DeviceFor as its inverse. */
  lemma TableIsBijection()
    ensures |OrientationMap| == 4
    ensures OrientationMap.Values == AllVideoOrientations
    ensures forall d1, d2 :: d1 in OrientationMap && d2 in OrientationMap && OrientationMap[d1] == OrientationMap[d2] ==> d1 == d2
    ensures forall d :: d in OrientationMap ==> DeviceFor(OrientationMap[d]) == d
  {
    TableCoversPortraitAndLandscape();
    forall v | v in AllVideoOrientations
      ensures v in OrientationMap.Values
    {
      var d := DeviceFor(v);
      assert d in OrientationMap && OrientationMap[d] == v;
    }
  }

  /** The table says the same as the home-button descriptions: d maps to v
      exactly when both put the home button on the same side. */
  lemma TableKeepsHomeButtonSide(d: DeviceOrientation, v: VideoOrientation)
    ensures d in OrientationMap && OrientationMap[d] == v <==> d.HomeButton() == Some(v.HomeButton())
  {
  }

  /** Lying flat or unknown leaves the connection's orientation as it was. */
  lemma UnmappedOrientationsKeepCurrent(d: DeviceOrientation, current: VideoOrientation)
    requires !d.IsPortrait() && !d.IsLandscape()
    ensures UpdatedVideoOrientation(d, current) == current
  {
  }

  /** Updating twice from the same device orientation is updating once. */
  lemma UpdateIsIdempotent(d: DeviceOrientation, current: VideoOrientation)
    ensures UpdatedVideoOrientation(d, UpdatedVideoOrientation(d, current)) == UpdatedVideoOrientation(d, current)
  {
  }
}
