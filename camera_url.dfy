/** The PTZOptics camera's HTTP-CGI interface as the scripts drive it: building a
    command URL, turning the response status into a result, and `post`, which does
    both. Two versions exist: the one nested in `send_camera_control`
    (multimodal_equilibrium.py, demo_movements.py) lower-cases the command and takes
    the speeds as parameters; `buildCgiUrl` (control_camera.py and its verbatim
    copies in track_person.py, control_camera_with_mmpose.py and
    Archive/control_camera.py) is case-sensitive, fixes the speeds at 24 and 20,
    and fails on focus and zoom commands, whose speed it reads from a name that is
    never defined. The HTTP request itself is not modelled: its status code is a
    parameter. */
module CameraUrl {
  import opened Wrappers
  import opened Text

  /** The camera's CGI endpoint, ending just before the action. */
  const BaseUrl: string := "http://192.168.100.88/cgi-bin/ptzctrl.cgi?ptzcmd&"

  /** The default speeds of `send_camera_control`. */
  const DefaultPanSpeed: int := 24
  const DefaultTiltSpeed: int := 20
  const DefaultFocusSpeed: int := 10
  const DefaultZoomSpeed: int := 10

  predicate IsDirection(action: string)
  {
    action == "up" || action == "down" || action == "left" || action == "right"
  }

  predicate IsStop(action: string)
  {
    action == "home" || action == "ptzstop"
  }

  predicate IsFocus(action: string)
  {
    action == "focusin" || action == "focusout" || action == "focusstop"
  }

  predicate IsZoom(action: string)
  {
    action == "zoomin" || action == "zoomout" || action == "zoomstop"
  }

  /** The command URL asking for `action` with the parameter text `params`. */
  function UrlFor(action: string, params: string): string
  {
    BaseUrl + action + params
  }

  /** The URL for an already lower-cased action under `send_camera_control`:
      directions carry the pan and tilt speeds, home and stop carry nothing,
      focus and zoom commands carry their own speed, and anything else sends the
      camera home. */
  function UrlOfAction(action: string, panSpeed: int, tiltSpeed: int, focusSpeed: int, zoomSpeed: int): string
  {
    if IsDirection(action) then UrlFor(action, "&" + IntToString(panSpeed) + "&" + IntToString(tiltSpeed))
    else if IsStop(action) then UrlFor(action, "")
    else if IsFocus(action) then UrlFor(action, "&" + IntToString(focusSpeed))
    else if IsZoom(action) then UrlFor(action, "&" + IntToString(zoomSpeed))
    else UrlFor("home", "&10&10")
  }

  /** The nested `build_cgi_url`: the command is lower-cased first. */
  function BuildCgiUrl(command: string, panSpeed: int, tiltSpeed: int, focusSpeed: int, zoomSpeed: int): string
  {
    UrlOfAction(Lower(command), panSpeed, tiltSpeed, focusSpeed, zoomSpeed)
  }

  /** `buildCgiUrl`: the command is compared as written, the speeds are fixed,
      and a focus or zoom command fails with a `NameError`. */
  function BuildCgiUrlFixed(command: string): Result<string>
  {
    var action := command;
    if IsDirection(action) then Ok(UrlFor(action, "&" + NatToString(24) + "&" + NatToString(20)))
    else if IsStop(action) then Ok(UrlFor(action, ""))
    else if IsFocus(action) || IsZoom(action) then Err(NameError)
    else Ok(UrlFor("home", "&10&10"))
  }

  /** The text up to the first `&`. */
  function UntilAmpersand(s: string): (r: string)
    ensures |r| <= |s| && r == s[..|r|]
    ensures '&' !in r
  {
    if s == [] || s[0] == '&' then [] else [s[0]] + UntilAmpersand(s[1..])
  }

  /** The action a command URL asks the camera for: the text after the endpoint up
      to the first parameter. */
  function UrlAction(url: string): Option<string>
  {
    if |BaseUrl| <= |url| && url[..|BaseUrl|] == BaseUrl then Some(UntilAmpersand(url[|BaseUrl|..])) else None
  }

  /** An action without `&`, followed by nothing or by parameters, reads back. */
  lemma {:induction false} UntilAmpersandPrefix(action: string, rest: string)
    requires '&' !in action
    requires rest == [] || rest[0] == '&'
    ensures UntilAmpersand(action + rest) == action
  {
    if action != [] {
      assert (action + rest)[1..] == action[1..] + rest;
      UntilAmpersandPrefix(action[1..], rest);
    }
  }

  /** A URL built for an action reads back that action. */
  lemma UrlActionOf(action: string, params: string)
    requires '&' !in action
    requires params == [] || params[0] == '&'
    ensures UrlAction(UrlFor(action, params)) == Some(action)
  {
    var url := UrlFor(action, params);
    assert url[..|BaseUrl|] == BaseUrl;
    assert url[|BaseUrl|..] == action + params;
    UntilAmpersandPrefix(action, params);
  }

  /** The actions the camera knows. */
  predicate Known(action: string)
  {
    IsDirection(action) || IsStop(action) || IsFocus(action) || IsZoom(action)
  }

  lemma KnownHasNoAmpersand(action: string)
    requires Known(action)
    ensures '&' !in action
  {
  }

  /** The camera is asked for the lower-cased command when it knows it, and to go
      home otherwise. */
  lemma BuildCgiUrlAction(command: string, panSpeed: int, tiltSpeed: int, focusSpeed: int, zoomSpeed: int)
    ensures UrlAction(BuildCgiUrl(command, panSpeed, tiltSpeed, focusSpeed, zoomSpeed))
      == Some(if Known(Lower(command)) then Lower(command) else "home")
  {
    var action := Lower(command);
    if IsDirection(action) {
      KnownHasNoAmpersand(action);
      UrlActionOf(action, "&" + IntToString(panSpeed) + "&" + IntToString(tiltSpeed));
    } else if IsStop(action) {
      KnownHasNoAmpersand(action);
      UrlActionOf(action, "");
    } else if IsFocus(action) {
      KnownHasNoAmpersand(action);
      UrlActionOf(action, "&" + IntToString(focusSpeed));
    } else if IsZoom(action) {
      KnownHasNoAmpersand(action);
      UrlActionOf(action, "&" + IntToString(zoomSpeed));
    } else {
      UrlActionOf("home", "&10&10");
    }
  }

  /** Upper- and lower-case spellings of a command give the same URL. */
  lemma BuildCgiUrlIgnoresCase(command: string, panSpeed: int, tiltSpeed: int, focusSpeed: int, zoomSpeed: int)
    ensures BuildCgiUrl(Lower(command), panSpeed, tiltSpeed, focusSpeed, zoomSpeed)
         == BuildCgiUrl(command, panSpeed, tiltSpeed, focusSpeed, zoomSpeed)
  {
    LowerIdempotent(command);
  }

  /** With the default speeds the two builders agree on every lower-case command
      except focus and zoom, where the fixed one fails. */
  lemma BuildersAgree(command: string)
    requires Lower(command) == command
    ensures IsFocus(command) || IsZoom(command) <==> BuildCgiUrlFixed(command).Err?
    ensures !IsFocus(command) && !IsZoom(command) ==>
      BuildCgiUrlFixed(command) == Ok(BuildCgiUrl(command, DefaultPanSpeed, DefaultTiltSpeed, DefaultFocusSpeed, DefaultZoomSpeed))
  {
    assert IntToString(DefaultPanSpeed) == NatToString(24);
    assert IntToString(DefaultTiltSpeed) == NatToString(20);
  }

  /** The fixed builder is case-sensitive: "UP" sends the camera home, where the
      lower-casing builder moves it up. */
  lemma FixedBuilderIsCaseSensitive()
    ensures BuildCgiUrlFixed("UP") == Ok(UrlFor("home", "&10&10"))
    ensures UrlAction(BuildCgiUrl("UP", DefaultPanSpeed, DefaultTiltSpeed, DefaultFocusSpeed, DefaultZoomSpeed)) == Some("up")
  {
    assert Lower("UP") == "up";
    BuildCgiUrlAction("UP", DefaultPanSpeed, DefaultTiltSpeed, DefaultFocusSpeed, DefaultZoomSpeed);
  }

  /** The result `send_camera_control` reports for a response status. */
  function SendCameraControl(status: int): (result: string)
    ensures result == "success" <==> status == 200
    ensures result == "failure" <==> status != 200
  {
    if status == 200 then "success" else "failure"
  }

  /** The result `sendCameraControl` reports: its two branches both say "success". */
  function SendCameraControlAlwaysSucceeds(status: int): (result: string)
    ensures result == "success"
  {
    if status == 200 then "success" else "success"
  }

  /** `post`: build the URL, request it (the response status is `status`) and report. */
  function Post(command: string, status: int): (r: Result<string>)
    ensures r.Err? <==> IsFocus(command) || IsZoom(command)
    ensures r.Ok? ==> r.value == "success"
  {
    match BuildCgiUrlFixed(command)
    case Err(f) => Err(f)
    case Ok(url) => Ok(SendCameraControlAlwaysSucceeds(status))
  }
}
