/** Results and the exceptions the camera wrapper can raise. */
module Outcomes {

  datatype Option<T> = None | Some(value: T)

  /** The exceptions raised by `BaslerCamera`, one constructor per kind of error. */
  datatype Error =
    /** TypeError: neither an argument nor a stored value names the device (IP address or name). */
    | Undefined(what: string)
    /** pylon.RuntimeException: device enumeration returned no camera at all. */
    | NoCameraDetected
    /** pylon.RuntimeException: no enumerated camera matches the IP address or name. */
    | CameraNotFound
    /** AttributeError from get_as_dict: a declared configuration attribute does not exist. */
    | MissingAttribute(name: string)
    /** TypeError/ValueError: a configuration value used as a number is a string. */
    | NotNumeric(name: string)
    /** AttributeError: the image converter is still None when a grabbed frame is converted. */
    | NoConverter

  datatype Result<T> = Ok(value: T) | Err(error: Error)
}
