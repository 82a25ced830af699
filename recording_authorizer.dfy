/**
 * How the camera and microphone permissions combine into one recording
 * status (OpenCollab/Sources/RecordingSupport/RecordingAuthorizer.swift).
 *
 * The system permission prompts are the parameters `answers`: what the user
 * answers when the camera or the microphone is asked for.
 */
module RecordingAuthorizerModel {
  import opened Wrappers

  /** `AVAuthorizationStatus`. */
  datatype DeviceAuthorization = NotDetermined | Restricted | Denied | Authorized

  datatype RecordingAuthorizationStatus = FullyAuthorized | CameraAuthorizedOnly | MicAuthorizedOnly | BothUnauthorized

  /** The answers to the two permission prompts, should they be shown. */
  datatype AccessAnswers = AccessAnswers(grantsCamera: bool, grantsMic: bool)

  function Undetermined(a: DeviceAuthorization): nat
  {
    if a == NotDetermined then 1 else 0
  }

  /** The last case of the switch: both permissions already settled. */
  function Settled(camera: DeviceAuthorization, mic: DeviceAuthorization): RecordingAuthorizationStatus
  {
    if camera == Authorized && mic != Authorized then CameraAuthorizedOnly
    else if camera != Authorized && mic == Authorized then MicAuthorizedOnly
    else BothUnauthorized
  }

  /**
   * `isAuthorized()`: an undetermined camera is asked for first, then an
   * undetermined microphone; a granted request asks the whole question again.
   */
  function IsAuthorized(camera: DeviceAuthorization, mic: DeviceAuthorization, answers: AccessAnswers)
    : RecordingAuthorizationStatus
    decreases Undetermined(camera) + Undetermined(mic)
  {
    if camera == Authorized && mic == Authorized then FullyAuthorized
    else if camera == NotDetermined then
      if answers.grantsCamera then IsAuthorized(Authorized, mic, answers)
      else if mic == Authorized then MicAuthorizedOnly else BothUnauthorized
    else if mic == NotDetermined then
      if answers.grantsMic then IsAuthorized(camera, Authorized, answers)
      else if camera == Authorized then CameraAuthorizedOnly else BothUnauthorized
    else Settled(camera, mic)
  }

  /** A device ends up usable when it already was, or when it is asked for and granted. */
  predicate EndsAuthorized(a: DeviceAuthorization, granted: bool)
  {
    a == Authorized || (a == NotDetermined && granted)
  }

  function Category(cameraUsable: bool, micUsable: bool): (s: RecordingAuthorizationStatus)
  {
    if cameraUsable && micUsable then FullyAuthorized
    else if cameraUsable then CameraAuthorizedOnly
    else if micUsable then MicAuthorizedOnly
    else BothUnauthorized
  }

  /** Recording is authorized exactly when both devices end up authorized. */
  lemma AuthorizedIffBothEndAuthorized(camera: DeviceAuthorization, mic: DeviceAuthorization, answers: AccessAnswers)
    ensures IsAuthorized(camera, mic, answers) == FullyAuthorized <==>
              EndsAuthorized(camera, answers.grantsCamera) && EndsAuthorized(mic, answers.grantsMic)
  {
    if camera == NotDetermined && answers.grantsCamera {
      assert IsAuthorized(camera, mic, answers) == IsAuthorized(Authorized, mic, answers);
    } else if camera != NotDetermined && mic == NotDetermined && answers.grantsMic {
      assert IsAuthorized(camera, mic, answers) == IsAuthorized(camera, Authorized, answers);
    }
  }

  /**
   * The status names the devices that end up authorized, except when a
   * denied camera request means the undetermined microphone is never asked
   * for: then both count as unauthorized.
   */
  lemma StatusNamesAuthorizedDevices(camera: DeviceAuthorization, mic: DeviceAuthorization, answers: AccessAnswers)
    ensures !(camera == NotDetermined && !answers.grantsCamera && mic == NotDetermined) ==>
              IsAuthorized(camera, mic, answers)
                == Category(EndsAuthorized(camera, answers.grantsCamera), EndsAuthorized(mic, answers.grantsMic))
    ensures camera == NotDetermined && !answers.grantsCamera && mic == NotDetermined ==>
              IsAuthorized(camera, mic, answers) == BothUnauthorized
  {
    if camera == NotDetermined && answers.grantsCamera {
      assert IsAuthorized(camera, mic, answers) == IsAuthorized(Authorized, mic, answers);
    } else if camera != NotDetermined && mic == NotDetermined && answers.grantsMic {
      assert IsAuthorized(camera, mic, answers) == IsAuthorized(camera, Authorized, answers);
    }
  }

  /** When nothing is asked for, the answers play no part. */
  lemma SettledStatusIgnoresAnswers(camera: DeviceAuthorization, mic: DeviceAuthorization,
                                    answers: AccessAnswers, other: AccessAnswers)
    requires camera != NotDetermined && mic != NotDetermined
    ensures IsAuthorized(camera, mic, answers) == IsAuthorized(camera, mic, other)
  {
  }

  /** The device `showUnauthorizedAlert` names: the one(s) still missing, and no alert at all when authorized. */
  function UnauthorizedDevice(status: RecordingAuthorizationStatus): (device: Option<string>)
    ensures device.None? <==> status == FullyAuthorized
  {
    match status
    case FullyAuthorized => None
    case CameraAuthorizedOnly => Some("microphone")
    case MicAuthorizedOnly => Some("camera")
    case BothUnauthorized => Some("camera & microphone")
  }

  function AlertMessage(status: RecordingAuthorizationStatus): (message: Option<string>)
    ensures message.None? <==> status == FullyAuthorized
    ensures message.Some? ==>
              message.value == "Collab Open Source doesn't have permission to use the "
                               + UnauthorizedDevice(status).value + ", please change privacy settings"
  {
    match UnauthorizedDevice(status)
    case None => None
    case Some(device) =>
      Some("Collab Open Source doesn't have permission to use the " + device + ", please change privacy settings")
  }

  predicate NamesCamera(device: string)
  {
    |device| >= 6 && device[..6] == "camera"
  }

  predicate NamesMicrophone(device: string)
  {
    |device| >= 10 && device[|device| - 10..] == "microphone"
  }

  /** The alert names the camera exactly when the camera is missing, and the microphone likewise. */
  lemma AlertNamesMissingDevices(status: RecordingAuthorizationStatus)
    requires status != FullyAuthorized
    ensures NamesCamera(UnauthorizedDevice(status).value) <==> status == MicAuthorizedOnly || status == BothUnauthorized
    ensures NamesMicrophone(UnauthorizedDevice(status).value) <==>
              status == CameraAuthorizedOnly || status == BothUnauthorized
  {
    var device := UnauthorizedDevice(status).value;
    match status
    case CameraAuthorizedOnly =>
      assert device[..6] == "microp";
    case MicAuthorizedOnly =>
      assert |device| < 10;
    case BothUnauthorized =>
      assert device[..6] == "camera";
      assert device[|device| - 10..] == "microphone";
  }
}
