/**
  The camera preview view as objects: the view owns a preview layer, the layer
  holds an optional capture session and an optional connection, and the
  connection's video orientation is what the view rewrites when asked to
  update. The device orientation, a global in the running program, is passed in.
 */
module PreviewView {
  import opened Orientation

  /** A capture session; the view only stores and returns the handle. */
  class CaptureSession {
    constructor ()
    {
    }
  }

  /** The preview layer's connection to the session. */
  class CaptureConnection {
    var videoOrientation: VideoOrientation

    constructor (videoOrientation: VideoOrientation)
      ensures this.videoOrientation == videoOrientation
    {
      this.videoOrientation := videoOrientation;
    }
  }

  /** The view's backing layer, reduced to the two properties the view uses. */
  class PreviewLayer {
    var session: CaptureSession?
    var connection: CaptureConnection?

    constructor (session: CaptureSession?, connection: CaptureConnection?)
      ensures this.session == session && this.connection == connection
    {
      this.session := session;
      this.connection := connection;
    }
  }

  class VideoPreviewView {
    const videoPreviewLayer: PreviewLayer

    /** The orientation table; nothing ever writes it. */
    const orientationMap: map<DeviceOrientation, VideoOrientation> := OrientationMap

    constructor (layer: PreviewLayer)
      ensures videoPreviewLayer == layer
    {
      videoPreviewLayer := layer;
    }

    /** The session property reads straight through to the layer. */
    function Session(): CaptureSession?
      reads videoPreviewLayer
    {
      videoPreviewLayer.session
    }

    /** Setting the session writes the layer's session and nothing else, so
        reading it back gives the value set. */
    method SetSession(newValue: CaptureSession?)
      modifies videoPreviewLayer
      ensures Session() == newValue
      ensures videoPreviewLayer.connection == old(videoPreviewLayer.connection)
    {
      videoPreviewLayer.session := newValue;
    }

    /** Points the preview connection the way the device is held. Without a
        connection nothing is touched; lying flat or unknown leaves the
        connection's orientation as it was; otherwise it becomes the table's
        entry. The session, the connection object and the table stay. */
    method UpdateVideoOrientationForDeviceOrientation(deviceOrientation: DeviceOrientation)
      modifies videoPreviewLayer.connection
      ensures videoPreviewLayer.session == old(videoPreviewLayer.session)
      ensures videoPreviewLayer.connection == old(videoPreviewLayer.connection)
      ensures videoPreviewLayer.connection != null ==>
        videoPreviewLayer.connection.videoOrientation
          == UpdatedVideoOrientation(deviceOrientation, old(videoPreviewLayer.connection.videoOrientation))
      ensures videoPreviewLayer.connection != null && deviceOrientation in orientationMap ==>
        videoPreviewLayer.connection.videoOrientation == orientationMap[deviceOrientation]
      ensures videoPreviewLayer.connection != null && !deviceOrientation.IsPortrait() && !deviceOrientation.IsLandscape() ==>
        videoPreviewLayer.connection.videoOrientation == old(videoPreviewLayer.connection.videoOrientation)
    {
      var videoPreviewLayerConnection := videoPreviewLayer.connection;
      if videoPreviewLayerConnection != null {
        if deviceOrientation !in orientationMap || !(deviceOrientation.IsPortrait() || deviceOrientation.IsLandscape()) {
          return;
        }
        var newVideoOrientation := orientationMap[deviceOrientation];
        videoPreviewLayerConnection.videoOrientation := newVideoOrientation;
      }
    }
  }
}
