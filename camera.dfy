/** The camera as the cue scripts see it: a sequence of commands sent to it, in
    order. Sleeps between commands are not modelled, so a trace records only what
    was sent. */
module Camera {
  import opened Wrappers
  import Text
  import CameraUrl

  /** The commands the cue scripts send. */
  datatype Cmd = Up | Down | Left | Right | Home | PtzStop

  /** The command's text, as passed to `send_camera_control` or `post`. */
  function CommandText(c: Cmd): (text: string)
    ensures text != []
  {
    match c
    case Up => "up"
    case Down => "down"
    case Left => "left"
    case Right => "right"
    case Home => "home"
    case PtzStop => "ptzstop"
  }

  /** Different commands have different texts. */
  lemma CommandTextInjective(a: Cmd, b: Cmd)
    ensures CommandText(a) == CommandText(b) ==> a == b
  {
  }

  /** Every command the scripts send is one the camera knows: both URL builders
      ask the camera for exactly that action, and `post` never fails on it. */
  lemma CommandsAreKnown(c: Cmd, status: int)
    ensures CameraUrl.Known(CommandText(c))
    ensures CameraUrl.UrlAction(CameraUrl.BuildCgiUrl(CommandText(c), CameraUrl.DefaultPanSpeed, CameraUrl.DefaultTiltSpeed,
      CameraUrl.DefaultFocusSpeed, CameraUrl.DefaultZoomSpeed)) == Some(CommandText(c))
    ensures CameraUrl.Post(CommandText(c), status) == Ok("success")
  {
    var text := CommandText(c);
    assert Text.Lower(text) == text;
    CameraUrl.BuildCgiUrlAction(text, CameraUrl.DefaultPanSpeed, CameraUrl.DefaultTiltSpeed,
      CameraUrl.DefaultFocusSpeed, CameraUrl.DefaultZoomSpeed);
  }

  /** A command that starts the camera moving, as opposed to stopping it or
      sending it to its home position. */
  predicate IsMotion(c: Cmd)
  {
    c.Up? || c.Down? || c.Left? || c.Right?
  }

  /** Every motion in the trace is immediately followed by a stop, so the camera is
      never left moving. */
  predicate Settled(trace: seq<Cmd>)
  {
    forall i :: 0 <= i < |trace| && IsMotion(trace[i]) ==> i + 1 < |trace| && trace[i + 1] == PtzStop
  }

  lemma SettledAppend(a: seq<Cmd>, b: seq<Cmd>)
    requires Settled(a) && Settled(b)
    ensures Settled(a + b)
  {
    forall i | 0 <= i < |a + b| && IsMotion((a + b)[i])
      ensures i + 1 < |a + b| && (a + b)[i + 1] == PtzStop
    {
      if i < |a| {
        assert (a + b)[i] == a[i];
        assert (a + b)[i + 1] == a[i + 1];
      } else {
        assert (a + b)[i] == b[i - |a|];
        assert (a + b)[i + 1] == b[i + 1 - |a|];
      }
    }
  }

  /** How often `c` occurs in the trace. */
  function Count(c: Cmd, trace: seq<Cmd>): (n: nat)
    ensures n <= |trace|
  {
    if trace == [] then 0 else Count(c, trace[..|trace| - 1]) + (if trace[|trace| - 1] == c then 1 else 0)
  }

  /** A command is counted zero times exactly when it is absent. */
  lemma {:induction false} CountZero(c: Cmd, trace: seq<Cmd>)
    ensures Count(c, trace) == 0 <==> c !in trace
  {
    if trace != [] {
      var init := trace[..|trace| - 1];
      CountZero(c, init);
      assert trace == init + [trace[|trace| - 1]];
    }
  }

  lemma {:induction false} CountAppend(c: Cmd, a: seq<Cmd>, b: seq<Cmd>)
    ensures Count(c, a + b) == Count(c, a) + Count(c, b)
    decreases |b|
  {
    if b != [] {
      assert (a + b)[..|a + b| - 1] == a + b[..|b| - 1];
      CountAppend(c, a, b[..|b| - 1]);
    } else {
      assert a + b == a;
    }
  }

  /** The camera: the commands sent to it so far. */
  class Camera {
    var sent: seq<Cmd>

    constructor ()
      ensures sent == []
    {
      sent := [];
    }

    /** Sends one command (the response is not modelled). */
    method Send(c: Cmd)
      modifies this
      ensures sent == old(sent) + [c]
    {
      sent := sent + [c];
    }
  }
}
