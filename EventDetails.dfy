/** The check-in/check-out controller of mobile-client/src/screens/EventDetailsScreen.tsx:
    the role gate, the location steps that precede a check-in, the fallback to the last
    known position, the `checkedIn` toggle, and the message an error is shown with. The
    device's location services and the API's outcome are inputs; what the handler does
    to the outside world is recorded as a list of effects. */
module EventDetails {
  import opened Wrappers
  import opened Strings
  import Api

  /** The oldest last-known position the fallback accepts, in milliseconds. */
  const MaxAge: int := 300000

  const LocationMessage := "You must be at the event location to check in"
  const ServerMessage := "Server error occurred. Please try again later."
  const NotStartedMessage := "Event has not started yet"
  const EndedMessage := "Event has already ended"
  const ServicesMessage := "Please enable location services in your device settings."
  const NoFixMessage := "Unable to get your location. Please enable GPS and try again."

  datatype Coords = Coords(latitude: real, longitude: real)

  /** A last-known position and how old it is, in milliseconds. */
  datatype KnownFix = KnownFix(coords: Coords, age: int)

  /** What the device answers: the permission status, whether location services are on,
      the live fix (None when it fails, which the handler catches itself) and the last
      known position. `Err(message)` is a call that rejects, with its error's message. */
  datatype Device = Device(permission: Result<string>, servicesEnabled: Result<bool>, current: Option<Coords>,
                           lastKnown: Result<Option<KnownFix>>)

  /** What the handler does outside the screen's own state, in order. */
  datatype Effect =
    | Alert(title: string, message: string)
    | RequestPermission
    | CheckServices
    | ReadCurrentPosition
    | ReadLastKnownPosition
    | CheckOutCall(eventID: string)
    | CheckInCall(eventID: string, coords: Coords)
    | Navigate(screen: string, isCheckOut: bool)

  /** `isUser`: the role is "user", or there is no role (absent or empty). */
  predicate IsUser(role: Option<string>) {
    role == Some("user") || role == None || role == Some("")
  }

  /** The "Failed to …" message used when nothing more specific applies. */
  function DefaultMessage(wasCheckedIn: bool): string {
    if wasCheckedIn then "Failed to check out" else "Failed to check in"
  }

  /** The message shown for a thrown error, first match winning: "400", "500", the two
      event-time texts, else the default. An empty message is the default. */
  function ErrorMessage(wasCheckedIn: bool, message: string): (m: string)
    ensures m == LocationMessage <==> Contains(message, "400")
    ensures m == ServerMessage <==> !Contains(message, "400") && Contains(message, "500")
    ensures m == NotStartedMessage <==>
      !Contains(message, "400") && !Contains(message, "500") && Contains(message, "event has not started yet")
    ensures m == EndedMessage <==>
      (!Contains(message, "400") && !Contains(message, "500") && !Contains(message, "event has not started yet")
       && Contains(message, "event has already ended"))
    ensures m == DefaultMessage(wasCheckedIn) <==>
      (!Contains(message, "400") && !Contains(message, "500") && !Contains(message, "event has not started yet")
       && !Contains(message, "event has already ended"))
  {
    if message == [] then DefaultMessage(wasCheckedIn)
    else if Contains(message, "400") then LocationMessage
    else if Contains(message, "500") then ServerMessage
    else if Contains(message, "event has not started yet") then NotStartedMessage
    else if Contains(message, "event has already ended") then EndedMessage
    else DefaultMessage(wasCheckedIn)
  }

  /** The position the check-in uses: the live fix, else a last-known one no older than
      five minutes; the fallback's rejection is passed on. */
  function Position(d: Device): (p: Result<Option<Coords>>)
    ensures d.current.Some? ==> p == Ok(d.current)
    ensures d.current.None? && d.lastKnown.Err? ==> p == Err(d.lastKnown.error)
    ensures d.current.None? && d.lastKnown.Ok? ==>
      p.Ok? && (p.value.Some? <==> d.lastKnown.value.Some? && d.lastKnown.value.value.age <= MaxAge)
    ensures d.current.None? && p.Ok? && p.value.Some? ==> p.value.value == d.lastKnown.value.value.coords
  {
    if d.current.Some? then Ok(d.current)
    else match d.lastKnown
      case Err(e) => Err(e)
      case Ok(fix) => if fix.Some? && fix.value.age <= MaxAge then Ok(Some(fix.value.coords)) else Ok(None)
  }

  class EventDetailsController {
    const eventID: string
    const role: Option<string>
    var loading: bool
    var checkedIn: bool
    var errorVisible: bool
    var errorMessage: string
    var effects: seq<Effect>

    constructor (eventID: string, role: Option<string>)
      ensures this.eventID == eventID && this.role == role
      ensures !loading && !checkedIn && !errorVisible && errorMessage == "" && effects == []
    {
      this.eventID := eventID;
      this.role := role;
      loading := false;
      checkedIn := false;
      errorVisible := false;
      errorMessage := "";
      effects := [];
    }

    /** Shows the error modal with a message. */
    method ShowError(message: string)
      modifies this
      ensures errorVisible && errorMessage == message
      ensures loading == old(loading) && checkedIn == old(checkedIn) && effects == old(effects)
    {
      errorVisible := true;
      errorMessage := message;
    }

    /** handleCheckInOut. `checkOutError` and `checkInError` are the messages the API calls
        reject with, None when they resolve. */
    method HandleCheckInOut(device: Device, checkOutError: Option<string>, checkInError: Option<string>)
      modifies this
      // The role gate comes before anything else.
      ensures !IsUser(role) ==>
        effects == old(effects) + [Alert("Access Denied", "Only users can check into events")]
        && loading == old(loading) && checkedIn == old(checkedIn)
        && errorVisible == old(errorVisible) && errorMessage == old(errorMessage)
      // Every path past the gate ends with loading off.
      ensures IsUser(role) ==> !loading
      // Checked in: only the check-out call, no location step.
      ensures IsUser(role) && old(checkedIn) ==>
        ((checkOutError.None? ==>
            (effects == old(effects) + [CheckOutCall(eventID), Navigate("CheckInSuccess", true)]
             && !checkedIn && errorVisible == old(errorVisible) && errorMessage == old(errorMessage)))
         && (checkOutError.Some? ==>
            (effects == old(effects) + [CheckOutCall(eventID)]
             && checkedIn && errorVisible && errorMessage == ErrorMessage(true, checkOutError.value))))
      // Not checked in, the permission request rejects: the catch's modal.
      ensures IsUser(role) && !old(checkedIn) && device.permission.Err? ==>
        (effects == old(effects) + [RequestPermission]
         && !checkedIn && errorVisible && errorMessage == ErrorMessage(false, device.permission.error))
      // Permission refused: an alert and nothing more.
      ensures IsUser(role) && !old(checkedIn) && device.permission.Ok? && device.permission.value != "granted" ==>
        (effects == old(effects) + [RequestPermission, Alert("Permission denied", "Location permission is required to check in")]
         && !checkedIn && errorVisible == old(errorVisible) && errorMessage == old(errorMessage))
      // The services check rejects: the catch's modal.
      ensures IsUser(role) && !old(checkedIn) && device.permission == Ok("granted") && device.servicesEnabled.Err? ==>
        (effects == old(effects) + [RequestPermission, CheckServices]
         && !checkedIn && errorVisible && errorMessage == ErrorMessage(false, device.servicesEnabled.error))
      // Location services off: the services message.
      ensures IsUser(role) && !old(checkedIn) && device.permission == Ok("granted") && device.servicesEnabled == Ok(false) ==>
        (effects == old(effects) + [RequestPermission, CheckServices]
         && !checkedIn && errorVisible && errorMessage == ServicesMessage)
      // The fallback read rejects: the catch's modal, and no check-in call.
      ensures IsUser(role) && !old(checkedIn) && device.permission == Ok("granted") && device.servicesEnabled == Ok(true)
              && Position(device).Err? ==>
        (effects == old(effects) + [RequestPermission, CheckServices, ReadCurrentPosition, ReadLastKnownPosition]
         && !checkedIn && errorVisible && errorMessage == ErrorMessage(false, Position(device).error))
      // No usable position: the GPS message, and no check-in call.
      ensures IsUser(role) && !old(checkedIn) && device.permission == Ok("granted") && device.servicesEnabled == Ok(true)
              && Position(device) == Ok(None) ==>
        (effects == old(effects) + [RequestPermission, CheckServices, ReadCurrentPosition, ReadLastKnownPosition]
         && !checkedIn && errorVisible && errorMessage == NoFixMessage)
      // A position: the check-in call with it; checked in only once that call resolves.
      ensures IsUser(role) && !old(checkedIn) && device.permission == Ok("granted") && device.servicesEnabled == Ok(true)
              && Position(device).Ok? && Position(device).value.Some? ==>
        (effects == old(effects) + LocationReads(device) + [CheckInCall(eventID, Position(device).value.value)]
                    + (if checkInError.None? then [Navigate("CheckInSuccess", false)] else [])
         && (checkedIn <==> checkInError.None?)
         && (checkInError.None? ==> errorVisible == old(errorVisible) && errorMessage == old(errorMessage))
         && (checkInError.Some? ==> errorVisible && errorMessage == ErrorMessage(false, checkInError.value)))
    {
      if !IsUser(role) {
        effects := effects + [Alert("Access Denied", "Only users can check into events")];
        return;
      }
      loading := true;
      if checkedIn {
        CheckOutStep(checkOutError);
      } else {
        CheckInStep(device, checkInError);
      }
      loading := false;
    }

    /** The check-out branch: the call, then either the toggle and the navigation or the
        error modal. */
    method CheckOutStep(checkOutError: Option<string>)
      modifies this
      ensures loading == old(loading)
      ensures checkOutError.None? ==>
        (effects == old(effects) + [CheckOutCall(eventID), Navigate("CheckInSuccess", true)]
         && !checkedIn && errorVisible == old(errorVisible) && errorMessage == old(errorMessage))
      ensures checkOutError.Some? ==>
        (effects == old(effects) + [CheckOutCall(eventID)] && checkedIn == old(checkedIn)
         && errorVisible && errorMessage == ErrorMessage(true, checkOutError.value))
    {
      if checkOutError.Some? {
        effects := effects + [CheckOutCall(eventID)];
        ShowError(ErrorMessage(true, checkOutError.value));
      } else {
        effects := effects + [CheckOutCall(eventID), Navigate("CheckInSuccess", true)];
        checkedIn := false;
      }
    }

    /** The check-in branch: permission, services, a position, then the call. A device
        call that rejects ends in the catch, whose modal shows ErrorMessage of its error. */
    method CheckInStep(device: Device, checkInError: Option<string>)
      modifies this
      ensures loading == old(loading)
      ensures device.permission.Err? ==>
        (effects == old(effects) + [RequestPermission]
         && checkedIn == old(checkedIn) && errorVisible && errorMessage == ErrorMessage(false, device.permission.error))
      ensures device.permission.Ok? && device.permission.value != "granted" ==>
        (effects == old(effects) + [RequestPermission, Alert("Permission denied", "Location permission is required to check in")]
         && checkedIn == old(checkedIn) && errorVisible == old(errorVisible) && errorMessage == old(errorMessage))
      ensures device.permission == Ok("granted") && device.servicesEnabled.Err? ==>
        (effects == old(effects) + [RequestPermission, CheckServices]
         && checkedIn == old(checkedIn) && errorVisible && errorMessage == ErrorMessage(false, device.servicesEnabled.error))
      ensures device.permission == Ok("granted") && device.servicesEnabled == Ok(false) ==>
        (effects == old(effects) + [RequestPermission, CheckServices]
         && checkedIn == old(checkedIn) && errorVisible && errorMessage == ServicesMessage)
      ensures device.permission == Ok("granted") && device.servicesEnabled == Ok(true) && Position(device).Err? ==>
        (effects == old(effects) + [RequestPermission, CheckServices, ReadCurrentPosition, ReadLastKnownPosition]
         && checkedIn == old(checkedIn) && errorVisible && errorMessage == ErrorMessage(false, Position(device).error))
      ensures device.permission == Ok("granted") && device.servicesEnabled == Ok(true) && Position(device) == Ok(None) ==>
        (effects == old(effects) + [RequestPermission, CheckServices, ReadCurrentPosition, ReadLastKnownPosition]
         && checkedIn == old(checkedIn) && errorVisible && errorMessage == NoFixMessage)
      ensures device.permission == Ok("granted") && device.servicesEnabled == Ok(true)
              && Position(device).Ok? && Position(device).value.Some? ==>
        (effects == old(effects) + LocationReads(device) + [CheckInCall(eventID, Position(device).value.value)]
                    + (if checkInError.None? then [Navigate("CheckInSuccess", false)] else [])
         && (checkInError.None? ==> checkedIn && errorVisible == old(errorVisible) && errorMessage == old(errorMessage))
         && (checkInError.Some? ==> checkedIn == old(checkedIn) && errorVisible && errorMessage == ErrorMessage(false, checkInError.value)))
    {
      if device.permission.Err? {
        effects := effects + [RequestPermission];
        ShowError(ErrorMessage(false, device.permission.error));
        return;
      }
      if device.permission.value != "granted" {
        effects := effects + [RequestPermission, Alert("Permission denied", "Location permission is required to check in")];
        return;
      }
      if device.servicesEnabled.Err? {
        effects := effects + [RequestPermission, CheckServices];
        ShowError(ErrorMessage(false, device.servicesEnabled.error));
        return;
      }
      if !device.servicesEnabled.value {
        effects := effects + [RequestPermission, CheckServices];
        ShowError(ServicesMessage);
        return;
      }
      var location := device.current;
      if location.None? {
        match device.lastKnown {
          case Err(e) =>
            effects := effects + [RequestPermission, CheckServices, ReadCurrentPosition, ReadLastKnownPosition];
            ShowError(ErrorMessage(false, e));
            return;
          case Ok(fix) =>
            if fix.Some? && fix.value.age <= MaxAge {
              location := Some(fix.value.coords);
            }
        }
      }
      if location.None? {
        effects := effects + [RequestPermission, CheckServices, ReadCurrentPosition, ReadLastKnownPosition];
        ShowError(NoFixMessage);
        return;
      }
      var calls := LocationReads(device) + [CheckInCall(eventID, location.value)];
      if checkInError.Some? {
        effects := effects + calls;
        ShowError(ErrorMessage(false, checkInError.value));
      } else {
        effects := effects + calls + [Navigate("CheckInSuccess", false)];
        checkedIn := true;
      }
    }
  }

  /** The device queries a check-in makes before it has a position: the last known one is
      asked for only when the live fix fails. */
  function LocationReads(d: Device): (r: seq<Effect>)
    ensures |r| == (if d.current.None? then 4 else 3)
    ensures r[..3] == [RequestPermission, CheckServices, ReadCurrentPosition]
  {
    [RequestPermission, CheckServices, ReadCurrentPosition] + (if d.current.None? then [ReadLastKnownPosition] else [])
  }

  /** Only an error naming "400" gets the location message, whatever else it names. */
  lemma OnlyFourHundredIsLocation(wasCheckedIn: bool, message: string)
    ensures ErrorMessage(wasCheckedIn, message) == LocationMessage <==> Contains(message, "400")
    ensures Contains(message, "400") && Contains(message, "event has already ended") ==>
      ErrorMessage(wasCheckedIn, message) == LocationMessage
  {
  }

  /** The error the API client raises for a non-OK response is "API Error: <status>",
      which holds no 'e', so the two event-time messages are never shown for it. */
  lemma {:induction false} ApiErrorsNeverEventTime(wasCheckedIn: bool, status: int)
    ensures ErrorMessage(wasCheckedIn, Api.ApiError(status)) != NotStartedMessage
    ensures ErrorMessage(wasCheckedIn, Api.ApiError(status)) != EndedMessage
  {
    var m := Api.ApiError(status);
    var digits := if status < 0 then NatToString(-status) else NatToString(status);
    assert m == "API Error: " + (if status < 0 then "-" else "") + digits;
    assert 'e' !in m by {
      forall i | 0 <= i < |m| ensures m[i] != 'e' {
        if i >= 11 + (if status < 0 then 1 else 0) {
          assert m[i] == digits[i - 11 - (if status < 0 then 1 else 0)];
        }
      }
    }
    if Contains(m, "event has not started yet") {
      ContainedChar(m, "event has not started yet", 'e');
    }
    if Contains(m, "event has already ended") {
      ContainedChar(m, "event has already ended", 'e');
    }
  }

  /** The decimal text of a three-digit number. */
  lemma ThreeDigits(n: nat)
    requires 100 <= n < 1000
    ensures NatToString(n) == [DigitChar(n / 100), DigitChar(n / 10 % 10), DigitChar(n % 10)]
  {
    assert NatToString(n / 100) == [DigitChar(n / 100)];
    assert n / 10 / 10 == n / 100;
    assert NatToString(n / 10) == [DigitChar(n / 100), DigitChar(n / 10 % 10)];
  }

  /** A 400 from the API is shown as the location message. */
  lemma ApiBadRequestMessage(wasCheckedIn: bool)
    ensures ErrorMessage(wasCheckedIn, Api.ApiError(400)) == LocationMessage
  {
    ThreeDigits(400);
    assert Api.ApiError(400) == "API Error: 400";
    OccursAtContains(Api.ApiError(400), "400", 11);
  }

  /** A 500 from the API is shown as the server message. */
  lemma ApiServerErrorMessage(wasCheckedIn: bool)
    ensures ErrorMessage(wasCheckedIn, Api.ApiError(500)) == ServerMessage
  {
    ThreeDigits(500);
    var m := Api.ApiError(500);
    assert m == "API Error: 500";
    OccursAtContains(m, "500", 11);
    assert '4' !in m;
    if Contains(m, "400") {
      ContainedChar(m, "400", '4');
    }
  }

  /** A last-known position exactly five minutes old is still used; one a millisecond
      older is not. */
  lemma FallbackAgeLimit(c: Coords, d: Coords)
    ensures Position(Device(Ok("granted"), Ok(true), None, Ok(Some(KnownFix(c, MaxAge))))) == Ok(Some(c))
    ensures Position(Device(Ok("granted"), Ok(true), None, Ok(Some(KnownFix(c, MaxAge + 1))))) == Ok(None)
    ensures Position(Device(Ok("granted"), Ok(true), Some(d), Ok(Some(KnownFix(c, 0))))) == Ok(Some(d))
    ensures Position(Device(Ok("granted"), Ok(true), Some(d), Err("timeout"))) == Ok(Some(d))
  {
  }
}
