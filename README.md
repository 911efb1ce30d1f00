# Camera preview orientation, modelled in Dafny

This project models the camera preview view of an iOS QR-code sample app
(`VideoPreviewView`). The view hosts a live camera feed on its backing
preview layer. It exposes that layer's capture session as a read/write
property. When asked to update, it reads the current device orientation
and points the preview connection's video orientation the way the device is
held. It does this through a fixed table from the seven device orientations UIKit reports to the four orientations a
capture connection accepts. Portrait and upside-down portrait map to
themselves. The two landscape orientations are swapped.

- `orientation.dfy`, module `Orientation`: the two enumerations, the table,
  the `isPortrait` and `isLandscape` predicates, the update guard as a function
  on values, and the lemmas about the table.
- `preview_view.dfy`, module `PreviewView`: the view, its layer, the layer's
  connection and the session handle as classes. The session setter and the
  orientation update are methods that change those objects in place.

The left/right swap is checked against an independent description of each
case. The frameworks document each orientation by where the home button is.
A device in "landscape left" has its home button on the right. A video
orientation of "landscape right" has its home button on the right.
`DeviceOrientation.HomeButton` and `VideoOrientation.HomeButton` encode
that documentation. `TableKeepsHomeButtonSide` proves that the table maps d
to v exactly when both put the home button on the same side. These
descriptions come from the frameworks' documentation, not from the app's
files.

## Model

| member | source | states |
|---|---|---|
| Orientation.Lookup | QRCode-Example/VideoPreviewView.swift:27-32 | subscripting the table yields a value exactly for portrait, upside-down portrait and the two landscapes, and the value found keeps the home button on the same side as the device |
| Orientation.NewVideoOrientation | QRCode-Example/VideoPreviewView.swift:37-39 | the guard (table entry present and device portrait or landscape) accepts exactly what the table lookup alone accepts, and rejects exactly unknown, face up and face down |
| Orientation.UpdatedVideoOrientation | QRCode-Example/VideoPreviewView.swift:34-42 | after an update, the orientation is the table entry when the device orientation has one, and otherwise the orientation from before |
| Orientation.DeviceFor | QRCode-Example/VideoPreviewView.swift:27-32 | every capture orientation is the entry of some key of the table, with the home button on the same side (the inverse of the table) |
| Orientation.PortraitsMapToThemselves | QRCode-Example/VideoPreviewView.swift:28-29 | portrait maps to portrait and upside-down portrait to upside-down portrait |
| Orientation.LandscapesAreSwapped | QRCode-Example/VideoPreviewView.swift:30-31 | device landscape left maps to capture landscape right, and device landscape right to capture landscape left |
| Orientation.TableCoversPortraitAndLandscape | QRCode-Example/VideoPreviewView.swift:27-37 | the table's keys are exactly the four portrait and landscape orientations, so the guard's extra isPortrait or isLandscape test never rejects a key |
| Orientation.TableIsBijection | QRCode-Example/VideoPreviewView.swift:27-32 | the table has four entries, is injective, its values are all four capture orientations, and DeviceFor undoes it |
| Orientation.TableKeepsHomeButtonSide | QRCode-Example/VideoPreviewView.swift:27-32 | d maps to v exactly when d and v put the home button on the same side, which is why the landscapes are swapped |
| Orientation.UnmappedOrientationsKeepCurrent | QRCode-Example/VideoPreviewView.swift:37-39 | an orientation that is neither portrait nor landscape leaves the current orientation unchanged |
| Orientation.UpdateIsIdempotent | QRCode-Example/VideoPreviewView.swift:34-42 | updating twice from the same device orientation gives the same orientation as updating once |
| PreviewView.VideoPreviewView.SetSession | QRCode-Example/VideoPreviewView.swift:18-21 | setting the session and then reading it returns the value set (in the model the connection is a separate field that the write leaves alone; see Left out) |
| PreviewView.VideoPreviewView.UpdateVideoOrientationForDeviceOrientation | QRCode-Example/VideoPreviewView.swift:34-42 | without a connection nothing changes; with one, its orientation becomes the table entry for a mapped orientation and stays as it was for unknown, face up and face down; the session, the connection object and the table are untouched |

## Left out

- `QRCode-Example/ViewController.swift`: it builds a barcode request and an image handler, and then prints the fields of the observations that come back. Detection and decoding happen inside the platform's vision framework, and printing is console output. No logic of its own is left to model.
- The `layerClass` override and the forced cast of `layer` to a preview layer (VideoPreviewView.swift:14-16, 23-25): these are framework wiring. The model gives the view a `PreviewLayer` object directly.
- The global read of the current device orientation (VideoPreviewView.swift:36): the update method takes it as a parameter instead.
- PreviewView.VideoPreviewView.SetSession: the real preview layer, when its session is written (VideoPreviewView.swift:20), creates its own connection to the new session's video input, and it drops the connection when the session is set to nil. The model does not capture this: the layer's connection is an independent field that a session write leaves as it was. So the model does not capture that whether the update (VideoPreviewView.swift:35) finds a connection depends on which session was set last.
- The session getter (VideoPreviewView.swift:19) is the function `PreviewView.VideoPreviewView.Session`, which reads the layer's field. Its only promise, the round trip with the setter, is stated on `SetSession`.
- `orientationMap` is a `private var` in the view but is never written. The model makes it a `const` field. That it stays the same is therefore given by its type rather than by an ensures clause.
- Capture session configuration, photo capture, permission alerts and threading: these are not part of this model. They belong to the platform frameworks and their asynchronous callbacks.
