# BaslerCamera session model

A Dafny model of `BaslerCamera` (`Camera/basler_camera.py`), the wrapper around a Basler
network camera. It covers three parts:

- **Configuration model.** The six persistable attributes are `ip_address`, `grab_timeout`,
  `exposure_time`, `frame_rate`, `gamma` and `gain`. `get_as_dict` exports them as a
  name-to-value mapping and `set_from_dict` imports them back.
- **Session state machine.** `connect_by_ip` and `connect_by_name` bind a device, `open`
  opens it, `grab_image`, `get_image` and the internal `__start`/`__stop` acquire frames, and
  `close` closes the session.
- **Parameter policy.** `set_parameters` writes gamma, gain, exposure and frame rate into the
  camera's registers.

The model has four modules:

- `Outcomes` (`outcomes.dfy`) holds `Option`, `Result` and one `Error` constructor per kind of
  error the wrapper raises.
- `Config` (`config.dfy`) defines the `Value` type (string, int or real), the declared attribute
  list, and the export/import functions with their round-trip lemmas. It also defines Python's
  `int()` as truncation toward zero.
- `Pylon` (`pylon.dfy`) replaces the vendor SDK with an abstract device:
  - a `TlFactory` holds the reachable devices (IP address and user-defined name) and counts how
    often they were enumerated;
  - an `InstantCamera` handle holds the open and grabbing flags, `MaxNumBuffer` and the
    parameter registers;
  - `RetrieveResult` picks the grab outcome nondeterministically and logs it;
  - an `ImageFormatConverter` carries its output format.
- `Camera` (`basler_camera.dfy`) holds the session class `BaslerCamera`, the scan for the first
  matching device, and the parameter policy as a function with its lemmas.

Python does not type-check `setattr`, so the persistable attributes are a map from name to
`Value`. Where the code uses an attribute as a number (`set_parameters`, `int(self.grab_timeout)`),
a string value is an error. The IP comparison compares the stored `Value` with the device's
address string.

The model follows the code where the code and its documentation differ:

- `close` clears `opened` but leaves `connected` set.
- `open` calls the camera's `Open()` again whenever the session is connected, even if it is
  already open, and builds a new converter each time.
- `grab_image` does not check `opened`; it needs a bound camera (`camera != null`). Because of
  this, "grabbing implies opened" is not an invariant: `grab_image` on a connected camera that
  was never opened starts the stream.
- When `get_image` raises inside `grab_image`, the stream that `grab_image` started is left
  running.
- When a frame is grabbed while the converter is still `None`, converting it raises before
  `Release` is called, so that grab result is never released.
- Reconnecting drops the previous camera handle without closing it or stopping its stream.

The session invariant `Valid()` is established by the constructor and preserved by every
operation. It states:

- the declared attribute list is the fixed one and every declared attribute exists;
- `opened ⇒ connected`;
- `connected ⇔ camera != null`;
- `opened ⇒` the camera is open and a converter exists.

## Model

| member | source | states |
|---|---|---|
| `Config.Trunc` | Camera/basler_camera.py:114 | Python's `int()` on a real rounds toward zero: the result is within one of the input, on the zero side |
| `Config.AsInt` | Camera/basler_camera.py:272 | `int(v)` of a stored value succeeds exactly when the value is numeric, and then equals the truncation of that number |
| `Config.Exported` | Camera/basler_camera.py:84-90 | the export of a session whose declared attributes all exist has exactly the declared names as keys, each mapped to its current value |
| `Config.Overlay` | Camera/basler_camera.py:102-104 | import never adds or removes an attribute; an attribute keeps its value unless it is declared and named in the mapping |
| `Config.RestoreOwnExport` | Camera/basler_camera.py:84-104 | importing the mapping that export produced leaves every attribute unchanged |
| `Config.ExportAfterRestore` | Camera/basler_camera.py:102-104 | import keeps the set of attributes, so every declared attribute still exists; a later export agrees with the imported mapping on every declared key it holds and keeps the previous value on the others |
| `Config.RestoreUndeclaredIsNoOp` | Camera/basler_camera.py:102-104 | a mapping whose keys are all undeclared changes nothing |
| `Camera.Matches` | Camera/basler_camera.py:158 | a device matches the stored address only when that value is a string equal to the device's address, so a non-string address matches nothing; by name, the user-defined name must equal the argument (line 196) |
| `Camera.FirstMatch` | Camera/basler_camera.py:157-164 | the selected index is a matching device with no match before it; there is no selection exactly when no device matches |
| `Camera.FindDevice` | Camera/basler_camera.py:157-160 | the scan with early break succeeds exactly when some device matches, and then stops at the first match |
| `Camera.ApplyParameters` | Camera/basler_camera.py:112-124 | the writes that precede a non-numeric value stay done: a bad gamma leaves every register as it was; any later error leaves gain auto Off; a bad gain leaves the gain as it was; every error leaves the frame-rate registers as they were |
| `Camera.EffectiveTimeout` | Camera/basler_camera.py:271-272 | a positive argument is the timeout; otherwise the stored `grab_timeout`, truncated, and an error only when that value is a string |
| `Camera.ParameterPolicy` | Camera/basler_camera.py:112-124 | with numeric values: gamma is written and gain auto is Off with the gain truncated; exposure auto is Off with the given time exactly when the time is > 0, otherwise Continuous with the time untouched; the frame-rate limiter is on with the given rate exactly when the rate is > 0, otherwise off with the rate untouched |
| `Camera.ParametersRaiseIffNotNumeric` | Camera/basler_camera.py:112-124 | applying the parameters raises exactly when one of the four values is a string; a numeric string gain is treated as an error under the `Config.AsInt` rule, although Python's `int()` parses it |
| `Camera.ApplyParametersIdempotent` | Camera/basler_camera.py:112-124 | applying the same values twice leaves the same registers as applying them once |
| `Camera.BaslerCamera.constructor` | Camera/basler_camera.py:53-71 | a new session has no camera or converter, is neither connected nor opened, and holds the default attribute values; the invariant holds |
| `Camera.BaslerCamera.GetAsDict` | Camera/basler_camera.py:84-90 | the result is a mapping whose keys are exactly the declared names, each mapped to its current value, when every declared attribute exists; otherwise it raises for the first missing name; a valid session never raises |
| `Camera.BaslerCamera.SetFromDict` | Camera/basler_camera.py:102-104 | the new attributes overwrite exactly the declared, existing keys of the mapping and keep every other value; the invariant is preserved |
| `Camera.BaslerCamera.SetParameters` | Camera/basler_camera.py:106-124 | the new registers and the outcome are those of the parameter policy applied to the stored gamma, gain, exposure time and frame rate |
| `Camera.BaslerCamera.ConnectByIp` | Camera/basler_camera.py:146-173 | the session is always reset and a non-empty argument is stored. With no stored address it raises without enumerating. It raises when nothing is enumerated or no address matches. On success it binds a fresh handle to the first matching device with MaxNumBuffer 5 and sets connected. Opened is always false afterwards and connected is false on every error |
| `Camera.BaslerCamera.ConnectByName` | Camera/basler_camera.py:186-211 | the same as ConnectByIp, matching on the user-defined name: an empty name raises without enumerating, and the stored address is left unchanged |
| `Camera.BaslerCamera.Open` | Camera/basler_camera.py:219-228 | when connected, it opens the camera once more, sets opened and builds a fresh BGR8-packed, MSB-aligned converter; otherwise nothing changes; afterwards opened equals connected |
| `Camera.BaslerCamera.Start` | Camera/basler_camera.py:244-247 | when opened, the camera is streaming afterwards and streaming was started only if it was not running; otherwise nothing changes |
| `Camera.BaslerCamera.RetrieveOutcome` | Camera/basler_camera.py:267-282 | one get_image on a streaming camera: a non-empty image only after a retrieve whose grab succeeded, and every retrieved result released whenever the call returns normally |
| `Camera.BaslerCamera.GetImage` | Camera/basler_camera.py:266-283 | when not streaming it returns the empty image without retrieving. When streaming it retrieves once, with `grab_timeout` when the argument is ≤ 0. A failed grab gives the empty image and a grabbed frame its conversion, so the image is non-empty only if the grab succeeded. The result is released unless converting raised. The streaming flag never changes |
| `Camera.BaslerCamera.GrabImage` | Camera/basler_camera.py:304-313 | when it returns an image, the streaming flag is back to its value before the call. The stream is started exactly when it was not running, and then stopped unless retrieving raised. Exactly the one retrieve of GetImage happens |
| `Camera.BaslerCamera.Stop` | Camera/basler_camera.py:323-326 | when opened, the camera is not streaming afterwards and the stream was stopped only if it was running; otherwise nothing changes |
| `Camera.BaslerCamera.Close` | Camera/basler_camera.py:332-337 | when opened, it stops any stream, clears opened and closes the camera; otherwise nothing changes; connected is never touched, so a second close is a no-op |

## Left out

- The vendor SDK is not part of this model. Device enumeration, handle creation, open/close,
  start/stop streaming, frame retrieval and buffer release are the abstract operations of
  `pylon.dfy`. Only what the wrapper observes is modelled.
- Timeouts inside `RetrieveResult` are not modelled. The source asks the SDK to throw on
  timeout, which makes a timeout a foreign exception; only the succeeded/failed grab outcome is
  modelled.
- Pixel conversion and the numpy image array are opaque: an image is either empty or a converted
  frame tagged with the converter's output format.
- Floating-point arithmetic is not modelled: gamma, gain, exposure time and frame rate are
  mathematical reals. Only the `> 0` comparisons and the truncation of `int()` matter.
- `Config.AsInt`: `int()` on a numeric string (`int("500")`) succeeds in Python; the model
  treats every string as non-numeric.
- `Camera.ParametersRaiseIffNotNumeric`, `Camera.ApplyParameters`, `Camera.BaslerCamera.SetParameters`:
  a numeric-string gain raises in the model, because of the `Config.AsInt` rule above.
- `Camera.EffectiveTimeout`, `Camera.BaslerCamera.GetImage`, `Camera.BaslerCamera.GrabImage`:
  a numeric-string `grab_timeout` raises in the model, because of the `Config.AsInt` rule above.
- `Camera.BaslerCamera.SetParameters` and `Camera.BaslerCamera.GrabImage`, `Camera.BaslerCamera.GetImage`:
  they require a bound camera. The source dereferences `None` otherwise and raises an
  AttributeError, which is not modelled.
- `Camera.BaslerCamera.SetParameters`: the device's own rejection of a register value
  (range or access-mode errors) is not modelled; every numeric value is accepted.
- The dictionary order of `get_as_dict`'s result is not modelled: a Dafny map has no order.
  Import does not depend on order, because each key is written at most once.
- Error message texts are not modelled. This includes the name lookup's "IP address ... not
  found" message.
- `Camera/camera_calibration.py` and `Camera/detection.py` are not part of this model. They are
  one-shot calibration and marker-detection scripts over an external vision library.
- The robot-motion scripts under `examples/`, `main/reding_boards_tst.py` (CSV loading) and
  `src/ctu_crs/__init__.py` (re-exports only) are not part of this model.
- There is no concurrency or blocking wait of the wrapper's own to model.
