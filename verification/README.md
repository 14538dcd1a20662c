# Posture Sentry: a Dafny model of the per-frame posture state

Posture Sentry watches a person through a webcam and warns when they slouch.
For every frame, a pose detector finds the left ear and the left shoulder.
The camera session then measures the neck inclination: the angle at the
shoulder between the ear and a point straight below the shoulder. It smooths
that angle over the last five readings and classifies the smoothed angle as
"Normal" or "Warning: Slouching!". The classifier uses two thresholds
(hysteresis). The session also draws a skeleton overlay in the selected theme
and serves a `{status, angle}` telemetry snapshot.

This project models the `VideoCamera` class of `camera.py`: its state, and the
logic that reads and updates that state.

- `wrappers.dfy` (`Wrappers`): an `Option` type.
- `geometry.dfy` (`Geometry`): the angle estimator. Directions from the
  shoulder are atan2 bearings in degrees (`Bearing`, within [-180, 180]). The
  estimator takes their absolute difference and folds it to the non-reflex
  angle. The virtual reference point sits 100 pixels below the shoulder, so
  its bearing is exactly 90 degrees.
- `smoothing.dfy` (`Smoothing`): the `deque(maxlen=5)` smoothing window as a
  sequence. `Push` appends with eviction, and `Mean` is the smoothed angle.
- `posture.dfy` (`Posture`): the hysteresis classifier. The thresholds are
  145 and 155. `Run` classifies a sequence of smoothed angles.
  `LastDecisive` is an independent characterisation of the resulting status:
  the most recent angle outside the dead band decides it.
- `theme.dfy` (`Theme`): the `THEMES` table and the lookup that falls back to
  `'cute'`.
- `camera.dfy` (`Camera`): the class `VideoCamera`.
  - Its fields are `status`, `neckInclination`, `currentMode` and
    `angleHistory`.
  - A ghost `smoothedTrace` records every smoothed angle classified so far.
  - `Valid()` is the object invariant. It says the window holds at most 5
    readings, all in [0, 180]. The inclination is the window's mean, or 0
    before any detection. The status equals `Run(Normal, smoothedTrace)`.
    The mode is a key of `THEMES`.
  - The methods are `SetMode`, `UpdateStatus` and `GetFrame`. The pure reads
    are `OverlayPalette` and `GetData`.

A frame is given to `GetFrame` as a `Capture`: either the device read failed,
or it succeeded with a `Detection`. A `Detection` is either no person, or a
person whose ear lies at a given bearing from the shoulder. The encoded
output frame is modelled only by the palette of the overlay drawn on it.

Three behaviours of the source are kept as they are:
- `get_data` reports `int(neck_inclination)`, which truncates toward zero
  (camera.py:131); `Truncate` models that.
- `set_mode` ignores a name that is not a theme key (camera.py:44-46). Only
  the web route answers such a name with an error (app.py:39-40), and that
  route is not part of this model.
- No state is reset when the person leaves the frame: a frame without a
  detection changes nothing (camera.py:76).

## Model

| member | source | states |
|---|---|---|
| `Geometry.FoldAngle` | camera.py:58-61 | A turn of at most 180 is kept. A turn in [0, 360] becomes the smaller of itself and its complement to 360, which lies in [0, 180]. |
| `Geometry.FoldIdempotent` | camera.py:58-59 | Folding an already folded turn changes nothing. |
| `Geometry.VectorAngle` | camera.py:55-61 | The angle between two bearings lies in [0, 180]. It is their absolute difference or that difference's complement to 360. |
| `Geometry.VectorAngleSymmetric` | camera.py:55-56 | Swapping the two outer points gives the same angle. |
| `Geometry.VectorAngleExtremes` | camera.py:55-61 | The angle is 0 exactly when the bearings coincide or are a full turn apart. It is 180 exactly when they are half a turn apart. |
| `Geometry.NeckAngleIsSupplementOfTilt` | camera.py:86-89 | Measured against the downward vertical, the angle is 180 less the ear's tilt away from straight up. |
| `Camera.NeckAngle` | camera.py:82-89 | The raw neck inclination of a detection lies in [0, 180]. It is 180 less the ear's tilt from straight up. |
| `Smoothing.Push` | camera.py:90 | The new window has length min(old length + 1, 5). It is the newest suffix of the old window followed by the new reading. |
| `Smoothing.PushBounded` | camera.py:42 | A window of at most 5 readings stays at most 5 after a push, and the new reading is last. |
| `Smoothing.PushEvictsOnlyWhenFull` | camera.py:42 | A push to a full window drops exactly the oldest reading and keeps the rest in order. A push to a window that is not full drops nothing. |
| `Smoothing.PushKeepsBounds` | camera.py:90 | If the window and the new reading lie in [lo, hi], the new window does too. |
| `Smoothing.Mean` | camera.py:91 | Built on `Sum`, which adds the readings left to right. The smoothed angle of a non-empty window is the value that, taken once per reading, adds up to the window's sum. |
| `Smoothing.SumAppend` | camera.py:91 | Appending a reading adds exactly that reading to the sum. |
| `Smoothing.SumOfConstant` | camera.py:91 | A window of n equal readings sums to n times that reading. |
| `Smoothing.SumBounds` | camera.py:91 | The sum of n readings in [lo, hi] lies in [n*lo, n*hi]. |
| `Smoothing.MeanWithin` | camera.py:91 | The mean of a non-empty window of readings in [lo, hi] lies in [lo, hi]. |
| `Smoothing.MeanOfConstant` | camera.py:91 | A window of equal readings averages to that reading. |
| `Smoothing.MeanOfSingleton` | camera.py:91 | A single reading averages to itself. |
| `Smoothing.EvictionExample` | camera.py:90-91 | Five readings of 160 and then one of 100 leave the window [160, 160, 160, 160, 100], whose mean is 148. |
| `Posture.Label` | camera.py:103-105 | The status string is one of two, and it is "Normal" exactly for the Normal status. |
| `Posture.NextStatus` | camera.py:100-105 | An angle below 145 gives Slouching, one above 155 gives Normal, and one in [145, 155] keeps the status. |
| `Posture.FlipsAreFarApart` | camera.py:20-21 | Two consecutive status changes need angles more than 10 degrees apart. |
| `Posture.RunFollowsLastDecisive` | camera.py:100-105 | After any sequence of angles, the most recent angle outside [145, 155] decides the status. If there is none, the starting status remains. |
| `Posture.DeadBandRunKeepsStatus` | camera.py:100-105 | Angles that all lie in [145, 155] never change the status, however many there are. |
| `Posture.HysteresisExample` | camera.py:100-105 | From Normal, the angles 140, 150, 156 give Slouching, Slouching, Normal. |
| `Theme.ThemeFor` | camera.py:109 | The lookup returns the palette of a known mode, or the `'cute'` palette for an unknown one. It always returns a palette of the table. |
| `Theme.ThemesAreDistinct` | camera.py:8-17 | The two themes have different palettes. |
| `Camera.Truncate` | camera.py:131 | The conversion to an integer truncates toward zero. |
| `Camera.VideoCamera.constructor` | camera.py:37-42 | A new session starts Normal, with inclination 0, mode `'cute'` and an empty window. The invariant holds. |
| `Camera.VideoCamera.SetMode` | camera.py:44-46 | The mode becomes the requested name when it is a key of `THEMES`, and is otherwise unchanged. Nothing else changes. |
| `Camera.VideoCamera.UpdateStatus` | camera.py:100-105 | The status becomes the classifier's next status for the given angle. Only the status changes. |
| `Camera.VideoCamera.OverlayPalette` | camera.py:109 | The overlay palette is from the table. For a valid session it is the palette of the selected mode, so the fallback is never taken. |
| `Camera.VideoCamera.GetFrame` | camera.py:63-98 | A failed read returns nothing, and a frame without a person is returned without an overlay; neither changes any state. A detection pushes the raw angle, stores the window's mean, classifies it and draws the selected theme. The invariant is preserved. |
| `Camera.VideoCamera.GetData` | camera.py:127-132 | The snapshot reports the status string. For a valid session its angle is the floor of the inclination, lies in [0, 180], and is 0 before any detection. |
| `Camera.StatusFollowsLastDecisive` | camera.py:100-105 | The reported status is the one decided by the most recent smoothed angle outside the dead band. It is Normal while there has been none. |
| `Camera.UprightScenario` | camera.py:76-94 | After five frames with the ear straight above the shoulder, a fresh session reports Normal and 180. |
| `Camera.SlouchScenario` | camera.py:89-94 | After five frames at 140 degrees the session warns. One upright frame afterwards leaves the mean at 148 and keeps the warning. |

## Left out

- Camera device I/O is not modelled: `cv2.VideoCapture`, the resolution settings, the frame read, colour conversion and JPEG encoding. A read is an input that either failed or succeeded, and the output image is modelled only by which palette was drawn on it.
- MediaPipe pose detection is not modelled beyond its result. The detector is an opaque foreign library; its result is modelled as no person, or the bearing of the ear from the shoulder.
- `draw_landmarks` and the drawing specs (thickness, radius) are pixel rendering. Only the palette selection is modelled.
- Geometry.VectorAngle: atan2, the radian-to-degree conversion and the pixel scaling of landmarks are floating-point trigonometry. Bearings are taken as given, in degrees.
- Floating-point rounding is not modelled. Angles, sums and means are exact reals, so the model's mean is the exact mean, not the rounded float the source computes.
- `__del__`, which releases the camera, is resource finalisation and is not modelled.
- app.py is not part of this model: Flask routing, the lazily created camera singleton, the streaming generator and its multipart framing, the browser launch, and the threads that share the session.
- static/js/cute.js and static/js/hacker.js are browser presentation code and are not part of this model.
