/** The effects the motion-driven recorders have on their collaborators: the
    camera guard of camera.py and the bot's alert and video delivery. */
module Capture {
  import opened Utils

  datatype Effect =
    | StartCapture     // camera.start_recording() while the camera was idle
    | Alert            // bot.alert(...)
    | StopAndDeliver   // camera.stop_recording() while recording, video sent to the admins

  /** Replays a log of effects against the camera's `is_recording` flag,
      starting from `recording`: a capture may start only while idle and
      stop only while recording. None if the log breaks that rule;
      otherwise the flag at the end. */
  function Replay(effects: seq<Effect>, recording: bool): (flag: Option<bool>)
  {
    if effects == [] then Some(recording)
    else match effects[0]
      case StartCapture => if recording then None else Replay(effects[1..], true)
      case StopAndDeliver => if recording then Replay(effects[1..], false) else None
      case Alert => Replay(effects[1..], recording)
  }

  /** Replaying a concatenation replays the first log, then the second. */
  lemma {:induction false} ReplayAppend(a: seq<Effect>, b: seq<Effect>, recording: bool)
    ensures Replay(a + b, recording) ==
            match Replay(a, recording)
            case None => None
            case Some(mid) => Replay(b, mid)
  {
    if a != [] {
      assert (a + b)[0] == a[0];
      assert (a + b)[1..] == a[1..] + b;
      match a[0]
      case StartCapture => if !recording { ReplayAppend(a[1..], b, true); }
      case StopAndDeliver => if recording { ReplayAppend(a[1..], b, false); }
      case Alert => ReplayAppend(a[1..], b, recording);
    } else {
      assert a + b == b;
    }
  }
}
