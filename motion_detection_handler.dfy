/** The earlier revision of the recording state machine,
    motionDetectionHandler.py. As in module Controller, each tick of `check`
    consumes the next motion reading and camera and bot are the abstract
    effects of module Capture. */
module MotionDetectionHandler {
  import opened Capture
  import opened Utils

  /** The index of the first active reading among the first `limit`, or
      `limit` when all of them are inactive. */
  function FirstActive(r: seq<bool>, limit: nat): (k: nat)
    requires limit <= |r|
    ensures k <= limit
    ensures k < limit ==> r[k]
    ensures forall i :: 0 <= i < k ==> !r[i]
    decreases limit
  {
    if limit == 0 then 0
    else
      var k := FirstActive(r, limit - 1);
      if k < limit - 1 then k
      else if r[limit - 1] then limit - 1
      else limit
  }

  /** `check` stops the recording exactly when the readings cover all
      `buffer` ticks and every one of them is inactive. */
  predicate CheckStops(r: seq<bool>, buffer: nat) {
    |r| >= buffer && forall i :: 0 <= i < buffer ==> !r[i]
  }

  /** `FirstActive` runs off the end of a full buffer iff `check` stops. */
  lemma FirstActiveReachesBufferIff(r: seq<bool>, buffer: nat)
    requires buffer <= |r|
    ensures FirstActive(r, buffer) == buffer <==> CheckStops(r, buffer)
  {
  }

  /** Any active reading within the buffer keeps the recording running. */
  lemma ActiveTickPreventsStop(r: seq<bool>, buffer: nat, j: nat)
    requires j < buffer <= |r| && r[j]
    ensures FirstActive(r, buffer) <= j
    ensures !CheckStops(r, buffer)
  {
  }

  class MotionHandler {
    var motionActive: bool
    /** Initialised but never consulted. */
    var paused: bool
    /** The camera's `is_recording` flag. */
    var cameraRecording: bool
    var effects: seq<Effect>

    /** `cfg.BUFFER_TIME_SECONDS`. */
    const bufferTimeSeconds: nat

    /** `__init__`: no motion, not paused, camera idle. */
    constructor(bufferTimeSeconds: nat)
      ensures !motionActive && !paused && !cameraRecording && effects == []
      ensures this.bufferTimeSeconds == bufferTimeSeconds
    {
      motionActive := false;
      paused := false;
      cameraRecording := false;
      effects := [];
      this.bufferTimeSeconds := bufferTimeSeconds;
    }

    /** `motion_state_change`: a start edge raises `motion_active` and, if
        the camera is idle, starts it and alerts once, whatever `paused`
        says; a stop edge lowers `motion_active` and runs one `check` over
        the readings that follow. */
    method MotionStateChange(isMotionStart: bool, readings: seq<bool>) returns (rest: seq<bool>)
      modifies this`motionActive, this`cameraRecording, this`effects
      ensures isMotionStart ==>
                && motionActive && cameraRecording && rest == readings
                && effects == old(effects) + (if old(cameraRecording) then [] else [StartCapture, Alert])
      ensures isMotionStart ==> Replay(effects[|old(effects)|..], old(cameraRecording)) == Some(cameraRecording)
      ensures !isMotionStart ==> CheckOutcome(readings, false, old(cameraRecording), old(effects), rest)
    {
      if isMotionStart {
        motionActive := true;
        if !cameraRecording {
          effects := effects + [StartCapture, Alert];
          cameraRecording := true;
          assert effects[|old(effects)|..] == [StartCapture, Alert];
          assert [StartCapture, Alert][1..] == [Alert] && [Alert][1..] == [];
        } else {
          assert effects[|old(effects)|..] == [];
        }
        rest := readings;
      } else {
        motionActive := false;
        rest := Check(readings);
      }
    }

    /** What `check` leaves behind, given the flags and log before it. */
    ghost predicate CheckOutcome(readings: seq<bool>, motion0: bool, recording0: bool, effects0: seq<Effect>, rest: seq<bool>)
      reads this
    {
      var n := if |readings| < bufferTimeSeconds then |readings| else bufferTimeSeconds;
      var k := FirstActive(readings, n);
      if k < n then
        // motion resumed at tick k + 1: nothing stops
        motionActive && cameraRecording == recording0 && effects == effects0 && rest == readings[k + 1..]
      else if |readings| < bufferTimeSeconds then
        // the readings end inside the buffer: the model's horizon
        && motionActive == (if n == 0 then motion0 else readings[n - 1])
        && cameraRecording == recording0 && effects == effects0 && rest == []
      else
        // every tick inactive: stop and deliver if recording
        && motionActive == (if n == 0 then motion0 else false)
        && !cameraRecording
        && effects == effects0 + (if recording0 then [StopAndDeliver] else [])
        && rest == readings[bufferTimeSeconds..]
    }

    /** `check`: up to `bufferTimeSeconds` ticks, returning as soon as
        motion is active; if none was, stop the recording (if any) and
        deliver it. */
    method Check(readings: seq<bool>) returns (rest: seq<bool>)
      modifies this`motionActive, this`cameraRecording, this`effects
      ensures CheckOutcome(readings, old(motionActive), old(cameraRecording), old(effects), rest)
      ensures Replay(effects[|old(effects)|..], old(cameraRecording)) == Some(cameraRecording)
    {
      ghost var n := if |readings| < bufferTimeSeconds then |readings| else bufferTimeSeconds;
      var i := 0;
      while i < bufferTimeSeconds
        invariant i <= bufferTimeSeconds && i <= |readings|
        invariant forall j :: 0 <= j < i ==> !readings[j]
        invariant motionActive == if i == 0 then old(motionActive) else readings[i - 1]
        invariant cameraRecording == old(cameraRecording) && effects == old(effects)
      {
        if i == |readings| {
          // the readings end inside the buffer: the model's horizon
          assert FirstActive(readings, n) == n;
          assert effects[|old(effects)|..] == [];
          return [];
        }
        motionActive := readings[i];
        if motionActive {
          FirstActiveAt(readings, n, i);
          assert effects[|old(effects)|..] == [];
          return readings[i + 1..];
        }
        i := i + 1;
      }
      assert FirstActive(readings, n) == n;
      if cameraRecording {
        effects := effects + [StopAndDeliver];
        cameraRecording := false;
        assert effects[|old(effects)|..] == [StopAndDeliver];
      } else {
        assert effects[|old(effects)|..] == [];
      }
      rest := readings[bufferTimeSeconds..];
    }
  }

  /** The first active reading, found, is the one `FirstActive` names. */
  lemma {:induction false} FirstActiveAt(r: seq<bool>, limit: nat, k: nat)
    requires k < limit <= |r| && r[k]
    requires forall j :: 0 <= j < k ==> !r[j]
    ensures FirstActive(r, limit) == k
    decreases limit
  {
    if k < limit - 1 {
      FirstActiveAt(r, limit - 1, k);
    } else {
      assert FirstActive(r, limit - 1) == limit - 1;
    }
  }

  /** The scenario "motion stops, the next two ticks are quiet" with a
      two-tick buffer while recording: the video is stopped and delivered. */
  lemma QuietBufferStops(r: seq<bool>)
    requires |r| >= 2 && !r[0] && !r[1]
    ensures CheckStops(r, 2) && FirstActive(r, 2) == 2
  {
  }
}
