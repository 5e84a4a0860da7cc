/** The camera's nod for one musician's movement label. A half step tilts the
    camera once in the direction of the pitch move and a whole step twice, each
    tilt followed by a stop. Three versions exist:
    - `execute_movement_for_instrument` in multimodal_equilibrium.py,
      demo_movements.py and Archive/execute_one_measure.py then tilts back once the
      other way to return to level;
    - the one in execute_one_measure.py does not return;
    - `execute_movement` in robot_conductor.py does not return either, but always
      ends by sending the camera home. */
module Cues {
  import opened Wrappers
  import opened Score
  import ChordSearch
  import opened Camera

  /** A nod: which way the camera tilts and how many half steps. */
  datatype Tilt = Tilt(direction: Cmd, halfSteps: nat)

  /** The nod a movement label asks for; "stay", "irregular" and every unknown
      label ask for none. */
  function TiltOf(movement: string): Option<Tilt>
  {
    if movement == "up half" then Some(Tilt(Up, 1))
    else if movement == "up whole" then Some(Tilt(Up, 2))
    else if movement == "down half" then Some(Tilt(Down, 1))
    else if movement == "down whole" then Some(Tilt(Down, 2))
    else None
  }

  /** The tilt or pan in the other direction. */
  function Opposite(c: Cmd): Cmd
  {
    match c
    case Up => Down
    case Down => Up
    case Left => Right
    case Right => Left
    case _ => c
  }

  /** `n` tilts in direction `d`, each followed by a stop. */
  function Nods(d: Cmd, n: nat): seq<Cmd>
  {
    if n == 0 then [] else Nods(d, n - 1) + [d, PtzStop]
  }

  /** The commands for a movement that returns the camera to level. */
  function Levelled(movement: string): seq<Cmd>
  {
    match TiltOf(movement)
    case None => []
    case Some(t) => Nods(t.direction, t.halfSteps) + [Opposite(t.direction), PtzStop]
  }

  /** The commands for a movement that leaves the camera tilted. */
  function Unlevelled(movement: string): seq<Cmd>
  {
    match TiltOf(movement)
    case None => []
    case Some(t) => Nods(t.direction, t.halfSteps)
  }

  /** The robot's labels ask for a nod exactly for steps of one or two semitones:
      up for a rising step, down for a falling one, and as many half steps as
      semitones. */
  lemma TiltOfLabel(diff: int)
    ensures TiltOf(Label(DetermineRobotMovement(diff))).Some? <==> diff != 0 && -2 <= diff <= 2
    ensures 0 < diff <= 2 ==> TiltOf(Label(DetermineRobotMovement(diff))) == Some(Tilt(Up, diff))
    ensures -2 <= diff < 0 ==> TiltOf(Label(DetermineRobotMovement(diff))) == Some(Tilt(Down, -diff))
  {
  }

  /** The chord labels ask for a nod for every move: in its direction, two half
      steps for a move of exactly two semitones and one for any other. */
  lemma TiltOfChordLabel(diff: int)
    ensures TiltOf(ChordSearch.MovementLabel(diff)).Some? <==> diff != 0
    ensures diff > 0 ==> TiltOf(ChordSearch.MovementLabel(diff)) == Some(Tilt(Up, if diff == 2 then 2 else 1))
    ensures diff < 0 ==> TiltOf(ChordSearch.MovementLabel(diff)) == Some(Tilt(Down, if diff == -2 then 2 else 1))
  {
  }

  /** `n` nods are `2 n` commands alternating between the direction and a stop. */
  lemma {:induction false} NodsSpec(d: Cmd, n: nat)
    ensures |Nods(d, n)| == 2 * n
    ensures forall i :: 0 <= i < |Nods(d, n)| ==> Nods(d, n)[i] == if i % 2 == 0 then d else PtzStop
  {
    if n > 0 {
      NodsSpec(d, n - 1);
    }
  }

  /** A nod tilts the camera exactly once per half step and never pans. */
  lemma {:induction false} NodsCount(d: Cmd, n: nat, c: Cmd)
    requires c != PtzStop
    ensures Count(c, Nods(d, n)) == if c == d then n else 0
  {
    if n > 0 {
      NodsCount(d, n - 1, c);
      CountAppend(c, Nods(d, n - 1), [d, PtzStop]);
      assert Count(c, [d, PtzStop]) == Count(c, [d]) by {
        assert [d, PtzStop][..1] == [d];
      }
    }
  }

  lemma NodsSettled(d: Cmd, n: nat)
    ensures Settled(Nods(d, n))
  {
    NodsSpec(d, n);
  }

  /** A levelled movement settles the camera, tilts the nod's way once per half
      step, back the other way once, and never pans. */
  lemma LevelledSpec(movement: string)
    ensures Settled(Levelled(movement))
    ensures Count(Left, Levelled(movement)) == 0 && Count(Right, Levelled(movement)) == 0
    ensures TiltOf(movement).Some? ==> var t := TiltOf(movement).value;
      |Levelled(movement)| == 2 * t.halfSteps + 2 && Count(t.direction, Levelled(movement)) == t.halfSteps
      && Count(Opposite(t.direction), Levelled(movement)) == 1
    ensures TiltOf(movement).None? ==> Levelled(movement) == []
  {
    if TiltOf(movement).Some? {
      var t := TiltOf(movement).value;
      var back := [Opposite(t.direction), PtzStop];
      NodsSpec(t.direction, t.halfSteps);
      NodsSettled(t.direction, t.halfSteps);
      SettledAppend(Nods(t.direction, t.halfSteps), back);
      forall c | c != PtzStop
        ensures Count(c, Levelled(movement)) == Count(c, Nods(t.direction, t.halfSteps)) + (if c == Opposite(t.direction) then 1 else 0)
      {
        CountAppend(c, Nods(t.direction, t.halfSteps), back);
        assert back[..1] == [Opposite(t.direction)];
      }
      NodsCount(t.direction, t.halfSteps, Left);
      NodsCount(t.direction, t.halfSteps, Right);
      NodsCount(t.direction, t.halfSteps, t.direction);
      NodsCount(t.direction, t.halfSteps, Opposite(t.direction));
    }
  }

  /** An unlevelled movement settles the camera and tilts exactly once per half
      step, never the other way and never sideways. */
  lemma UnlevelledSpec(movement: string)
    ensures Settled(Unlevelled(movement))
    ensures Count(Left, Unlevelled(movement)) == 0 && Count(Right, Unlevelled(movement)) == 0
    ensures TiltOf(movement).Some? ==> var t := TiltOf(movement).value;
      |Unlevelled(movement)| == 2 * t.halfSteps && Count(t.direction, Unlevelled(movement)) == t.halfSteps
      && Count(Opposite(t.direction), Unlevelled(movement)) == 0
    ensures TiltOf(movement).None? ==> Unlevelled(movement) == []
  {
    if TiltOf(movement).Some? {
      var t := TiltOf(movement).value;
      NodsSpec(t.direction, t.halfSteps);
      NodsSettled(t.direction, t.halfSteps);
      NodsCount(t.direction, t.halfSteps, Left);
      NodsCount(t.direction, t.halfSteps, Right);
      NodsCount(t.direction, t.halfSteps, t.direction);
      NodsCount(t.direction, t.halfSteps, Opposite(t.direction));
    }
  }

  /** The four labels that ask for a nod, written out. */
  lemma LevelledOf(movement: string)
    ensures Levelled(movement) ==
      if movement == "up half" then [Up, PtzStop, Down, PtzStop]
      else if movement == "up whole" then [Up, PtzStop, Up, PtzStop, Down, PtzStop]
      else if movement == "down half" then [Down, PtzStop, Up, PtzStop]
      else if movement == "down whole" then [Down, PtzStop, Down, PtzStop, Up, PtzStop]
      else []
  {
    assert Nods(Up, 1) == [Up, PtzStop] && Nods(Down, 1) == [Down, PtzStop];
    assert Nods(Up, 2) == [Up, PtzStop, Up, PtzStop] && Nods(Down, 2) == [Down, PtzStop, Down, PtzStop];
  }

  lemma UnlevelledOf(movement: string)
    ensures Unlevelled(movement) ==
      if movement == "up half" then [Up, PtzStop]
      else if movement == "up whole" then [Up, PtzStop, Up, PtzStop]
      else if movement == "down half" then [Down, PtzStop]
      else if movement == "down whole" then [Down, PtzStop, Down, PtzStop]
      else []
  {
    assert Nods(Up, 1) == [Up, PtzStop] && Nods(Down, 1) == [Down, PtzStop];
    assert Nods(Up, 2) == [Up, PtzStop, Up, PtzStop] && Nods(Down, 2) == [Down, PtzStop, Down, PtzStop];
  }

  /** One motion of the camera followed by a stop (the pause between them is not
      modelled). */
  method Nudge(cam: Camera, c: Cmd)
    modifies cam
    ensures cam.sent == old(cam.sent) + [c, PtzStop]
  {
    cam.Send(c);
    cam.Send(PtzStop);
  }

  /** `execute_movement_for_instrument` with a return to level. */
  method ExecuteMovementForInstrument(cam: Camera, movement: string)
    modifies cam
    ensures cam.sent == old(cam.sent) + Levelled(movement)
  {
    LevelledOf(movement);
    ghost var start := cam.sent;
    if movement == "up half" {
      Nudge(cam, Up);
      Nudge(cam, Down);
      assert cam.sent == start + [Up, PtzStop, Down, PtzStop];
    } else if movement == "up whole" {
      Nudge(cam, Up);
      Nudge(cam, Up);
      Nudge(cam, Down);
      assert cam.sent == start + [Up, PtzStop, Up, PtzStop, Down, PtzStop];
    } else if movement == "down half" {
      Nudge(cam, Down);
      Nudge(cam, Up);
      assert cam.sent == start + [Down, PtzStop, Up, PtzStop];
    } else if movement == "down whole" {
      Nudge(cam, Down);
      Nudge(cam, Down);
      Nudge(cam, Up);
      assert cam.sent == start + [Down, PtzStop, Down, PtzStop, Up, PtzStop];
    }
  }

  /** `execute_movement_for_instrument` of execute_one_measure.py: no return tilt. */
  method ExecuteMovementNoReturn(cam: Camera, movement: string)
    modifies cam
    ensures cam.sent == old(cam.sent) + Unlevelled(movement)
  {
    UnlevelledOf(movement);
    if movement == "up half" {
      Nudge(cam, Up);
    } else if movement == "up whole" {
      Nudge(cam, Up);
      Nudge(cam, Up);
    } else if movement == "down half" {
      Nudge(cam, Down);
    } else if movement == "down whole" {
      Nudge(cam, Down);
      Nudge(cam, Down);
    }
  }

  /** The tilts `execute_movement` looks up for a label: one for a half step, two
      for a whole step, none for any other label. */
  function TiltCommands(movement: string): seq<Cmd>
  {
    if movement == "up half" then [Up]
    else if movement == "up whole" then [Up, Up]
    else if movement == "down half" then [Down]
    else if movement == "down whole" then [Down, Down]
    else []
  }

  /** `execute_movement` (robot_conductor.py): each tilt the label calls for,
      followed by a stop, then home. */
  method ExecuteMovement(cam: Camera, movement: string)
    modifies cam
    ensures cam.sent == old(cam.sent) + Unlevelled(movement) + [Home]
  {
    var commands := TiltCommands(movement);
    ghost var start := cam.sent;
    for k := 0 to |commands|
      invariant cam.sent == start + Nods(if commands == [] then Up else commands[0], k)
    {
      cam.Send(commands[k]);
      cam.Send(PtzStop);
    }
    cam.Send(Home);
  }
}
