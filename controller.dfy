/** The motion-to-recording state machine of controller.py. Each timer tick
    (`time.sleep(1)` followed by a read of `motion_active`) consumes the next
    element of a sequence of motion readings; camera and bot are the
    abstract effects of module Capture. */
module Controller {
  import opened Capture
  import opened Utils

  /** The inactivity counter after the first `i` ticks of `r`: reset to 0
      by an active tick, raised by one by an inactive one. */
  function Streak(r: seq<bool>, i: nat): (k: nat)
    requires i <= |r|
    ensures k <= i
  {
    if i == 0 then 0
    else if r[i - 1] then 0
    else Streak(r, i - 1) + 1
  }

  /** The counter is the number of trailing inactive readings: the last
      `Streak(r, i)` of the first `i` readings are inactive and the one
      before them, if any, is active. */
  lemma {:induction false} StreakIsTrailingInactive(r: seq<bool>, i: nat)
    requires i <= |r|
    ensures forall j :: i - Streak(r, i) <= j < i ==> !r[j]
    ensures Streak(r, i) < i ==> r[i - 1 - Streak(r, i)]
  {
    if i > 0 && !r[i - 1] {
      StreakIsTrailingInactive(r, i - 1);
    }
  }

  /** The first tick t (1-based, t <= limit) at which the counter reaches
      `buffer`, or limit + 1 when it reaches it at no tick up to `limit`. */
  function FirstReach(r: seq<bool>, buffer: nat, limit: nat): (t: nat)
    requires limit <= |r|
    ensures 1 <= t <= limit + 1
    ensures t <= limit ==> Streak(r, t) >= buffer
    ensures forall u :: 1 <= u < t && u <= limit ==> Streak(r, u) < buffer
    decreases limit
  {
    if limit == 0 then 1
    else
      var t := FirstReach(r, buffer, limit - 1);
      if t <= limit - 1 then t
      else if Streak(r, limit) >= buffer then limit
      else limit + 1
  }

  /** `FirstReach` is characterised by its contract: a tick t within the
      limit at which the counter reaches `buffer` for the first time is the
      one it returns. */
  lemma {:induction false} FirstReachIsFirst(r: seq<bool>, buffer: nat, limit: nat, t: nat)
    requires limit <= |r| && 1 <= t <= limit
    requires Streak(r, t) >= buffer
    requires forall u :: 1 <= u < t ==> Streak(r, u) < buffer
    ensures FirstReach(r, buffer, limit) == t
    decreases limit
  {
    if t < limit {
      FirstReachIsFirst(r, buffer, limit - 1, t);
    } else {
      assert FirstReach(r, buffer, limit - 1) == limit;
    }
  }

  /** What a run of the timer leaves behind: the effects it caused, the
      readings it did not consume, and the final camera and motion flags. */
  datatype Outcome = Outcome(effects: seq<Effect>, rest: seq<bool>, recording: bool, motion: bool)

  /** The timer (`_timer`, restarted through `_start_recording`) over the
      readings `r`. Each session lasts until the counter reaches `buffer`
      (stop and deliver) or for `maxLen` ticks (stop and deliver if
      recording, then start a new session unless paused). When the readings
      end inside a session, the model's horizon ends there. */
  function Run(r: seq<bool>, buffer: nat, maxLen: nat, paused: bool, recording: bool, motion: bool): (o: Outcome)
    requires maxLen > 0
    decreases |r|
  {
    var n := if |r| < maxLen then |r| else maxLen;
    var t := FirstReach(r, buffer, n);
    if t <= n then
      Outcome(if recording then [StopAndDeliver] else [], r[t..], false, r[t - 1])
    else if |r| < maxLen then
      Outcome([], [], recording, if |r| == 0 then motion else r[|r| - 1])
    else if !recording then
      Outcome([], r[maxLen..], false, r[maxLen - 1])
    else if paused then
      Outcome([StopAndDeliver], r[maxLen..], false, r[maxLen - 1])
    else
      var o := Run(r[maxLen..], buffer, maxLen, paused, true, r[maxLen - 1]);
      Outcome([StopAndDeliver, StartCapture, Alert] + o.effects, o.rest, o.recording, o.motion)
  }

  /** No two recordings overlap: replaying the timer's effects against the
      camera flag never starts a capture while one is running or stops one
      that is not, and ends in the flag the timer reports. */
  lemma {:induction false} RunNeverOverlaps(r: seq<bool>, buffer: nat, maxLen: nat, paused: bool, recording: bool, motion: bool)
    requires maxLen > 0
    ensures Replay(Run(r, buffer, maxLen, paused, recording, motion).effects, recording)
            == Some(Run(r, buffer, maxLen, paused, recording, motion).recording)
    decreases |r|
  {
    var n := if |r| < maxLen then |r| else maxLen;
    var t := FirstReach(r, buffer, n);
    if t > n && |r| >= maxLen && recording && !paused {
      var o := Run(r[maxLen..], buffer, maxLen, paused, true, r[maxLen - 1]);
      RunNeverOverlaps(r[maxLen..], buffer, maxLen, paused, true, r[maxLen - 1]);
      ReplayAppend([StopAndDeliver, StartCapture, Alert], o.effects, true);
      assert Replay([StopAndDeliver, StartCapture, Alert], true) == Some(true) by {
        assert [StopAndDeliver, StartCapture, Alert][1..] == [StartCapture, Alert];
        assert [StartCapture, Alert][1..] == [Alert];
        assert [Alert][1..] == [];
      }
    } else if t <= n && recording {
      assert [StopAndDeliver][1..] == [];
    }
  }

  /** The debounce: when the counter first reaches `buffer` at tick t within
      a session, the recording stops there (if the camera was recording),
      nothing restarts and the readings after tick t are left. */
  lemma DebounceStopsAtFirstReach(r: seq<bool>, buffer: nat, maxLen: nat, paused: bool, recording: bool, motion: bool, t: nat)
    requires maxLen > 0
    requires 1 <= t <= maxLen && t <= |r|
    requires Streak(r, t) >= buffer
    requires forall u :: 1 <= u < t ==> Streak(r, u) < buffer
    ensures Run(r, buffer, maxLen, paused, recording, motion)
            == Outcome(if recording then [StopAndDeliver] else [], r[t..], false, r[t - 1])
  {
    FirstReachIsFirst(r, buffer, if |r| < maxLen then |r| else maxLen, t);
  }

  /** The horizon: readings that end inside a session without a debounce
      leave the camera as it was and the motion flag at the last reading. */
  lemma RunAtHorizon(r: seq<bool>, buffer: nat, maxLen: nat, paused: bool, recording: bool, motion: bool)
    requires maxLen > |r|
    requires forall u :: 1 <= u <= |r| ==> Streak(r, u) < buffer
    ensures Run(r, buffer, maxLen, paused, recording, motion)
            == Outcome([], [], recording, if |r| == 0 then motion else r[|r| - 1])
  {
    assert FirstReach(r, buffer, |r|) == |r| + 1;
  }

  /** The cap, stated exactly: after `maxLen` ticks without a debounce a
      running recording is stopped and, unless paused, the next session's
      run follows a restart. */
  lemma RunAtCap(r: seq<bool>, buffer: nat, maxLen: nat, paused: bool, recording: bool, motion: bool)
    requires maxLen > 0 && |r| >= maxLen
    requires forall u :: 1 <= u <= maxLen ==> Streak(r, u) < buffer
    ensures var o := Run(r, buffer, maxLen, paused, recording, motion);
            var next := Run(r[maxLen..], buffer, maxLen, paused, true, r[maxLen - 1]);
            o == if !recording then Outcome([], r[maxLen..], false, r[maxLen - 1])
                 else if paused then Outcome([StopAndDeliver], r[maxLen..], false, r[maxLen - 1])
                 else Outcome([StopAndDeliver, StartCapture, Alert] + next.effects, next.rest, next.recording, next.motion)
  {
    assert FirstReach(r, buffer, maxLen) == maxLen + 1;
  }

  /** The hard cap: a session with no debounce in its `maxLen` ticks stops
      the recording; a new one starts iff surveillance is not paused. */
  lemma CapRestartsIffNotPaused(r: seq<bool>, buffer: nat, maxLen: nat, paused: bool, motion: bool)
    requires maxLen > 0 && |r| >= maxLen
    requires forall u :: 1 <= u <= maxLen ==> Streak(r, u) < buffer
    ensures var o := Run(r, buffer, maxLen, paused, true, motion);
            && o.effects[..1] == [StopAndDeliver]
            && (StartCapture in o.effects <==> !paused)
            && (!paused ==> o.effects[..3] == [StopAndDeliver, StartCapture, Alert])
  {
    assert FirstReach(r, buffer, maxLen) == maxLen + 1;
  }

  /** While paused, the timer never starts a capture. */
  lemma PausedNeverRestarts(r: seq<bool>, buffer: nat, maxLen: nat, recording: bool, motion: bool)
    requires maxLen > 0
    ensures StartCapture !in Run(r, buffer, maxLen, true, recording, motion).effects
  {
  }

  /** With continuous motion the counter never reaches a positive buffer. */
  lemma ContinuousMotionNeverDebounces(r: seq<bool>, buffer: nat, k: nat)
    requires buffer > 0 && k <= |r|
    requires forall i :: 0 <= i < k ==> r[i]
    ensures forall u :: 1 <= u <= k ==> Streak(r, u) < buffer
  {
  }

  /** The scenario "motion active for ticks 1-5, inactive from tick 6":
      with a 2-tick buffer the recording stops at tick 7 and nothing
      restarts. */
  lemma DebounceScenario(paused: bool)
    ensures var r := [true, true, true, true, true, false, false];
            Run(r, 2, 30, paused, true, true) == Outcome([StopAndDeliver], [], false, false)
  {
    var r := [true, true, true, true, true, false, false];
    ContinuousMotionNeverDebounces(r, 2, 5);
    assert Streak(r, 7) == 2;
    DebounceStopsAtFirstReach(r, 2, 30, paused, true, true, 7);
  }

  /** The scenario "motion for all 30 ticks of a session, not paused": the
      recording is stopped and delivered and a new one starts at once. */
  lemma MaxDurationScenario(r: seq<bool>)
    requires |r| == 30 && forall i :: 0 <= i < 30 ==> r[i]
    ensures Run(r, 2, 30, false, true, true).effects == [StopAndDeliver, StartCapture, Alert]
  {
    ContinuousMotionNeverDebounces(r, 2, 30);
    assert FirstReach(r, 2, 30) == 31;
    assert r[30..] == [];
    assert Run([], 2, 30, false, true, r[29]).effects == [];
  }

  /** The log of a restart, regrouped. */
  lemma RestartLog(log: seq<Effect>, next: seq<Effect>)
    ensures log + [StopAndDeliver] + [StartCapture] + [Alert] + next == log + ([StopAndDeliver, StartCapture, Alert] + next)
  {
    assert [StopAndDeliver] + [StartCapture] + [Alert] == [StopAndDeliver, StartCapture, Alert];
  }

  class Controller {
    var motionActive: bool
    var surveillancePaused: bool
    /** The camera's `is_recording` flag. */
    var cameraRecording: bool
    var effects: seq<Effect>

    /** `cfg.BUFFER_TIME_STEPS` and `cfg.MAX_VIDEO_LENGTH`. */
    const bufferTimeSteps: nat
    const maxVideoLength: nat

    /** `__init__`: no motion, surveillance paused, camera idle. */
    constructor(bufferTimeSteps: nat, maxVideoLength: nat)
      ensures !motionActive && surveillancePaused && !cameraRecording && effects == []
      ensures this.bufferTimeSteps == bufferTimeSteps && this.maxVideoLength == maxVideoLength
    {
      motionActive := false;
      surveillancePaused := true;
      cameraRecording := false;
      effects := [];
      this.bufferTimeSteps := bufferTimeSteps;
      this.maxVideoLength := maxVideoLength;
    }

    /** `pause_unpause_callback`: always sets the flag; reports whether it
        changed. A running capture is not touched. */
    method PauseUnpause(pauseSurveillance: bool) returns (didChange: bool)
      modifies this`surveillancePaused
      ensures surveillancePaused == pauseSurveillance
      ensures didChange <==> pauseSurveillance != old(surveillancePaused)
    {
      didChange := pauseSurveillance != surveillancePaused;
      surveillancePaused := pauseSurveillance;
    }

    /** `motion_state_change_callback`: a start edge raises `motion_active`
        and, when the camera is idle and surveillance is not paused, runs
        `_start_recording` over the readings that follow; a stop edge only
        lowers `motion_active`. */
    method MotionStateChange(isMotionStart: bool, readings: seq<bool>) returns (rest: seq<bool>)
      requires maxVideoLength > 0
      modifies this`motionActive, this`cameraRecording, this`effects
      ensures isMotionStart && !old(cameraRecording) && !surveillancePaused ==>
                var o := Run(readings, bufferTimeSteps, maxVideoLength, surveillancePaused, true, true);
                && effects == old(effects) + [StartCapture, Alert] + o.effects
                && rest == o.rest && cameraRecording == o.recording && motionActive == o.motion
      ensures !(isMotionStart && !old(cameraRecording) && !surveillancePaused) ==>
                && motionActive == isMotionStart
                && effects == old(effects) && cameraRecording == old(cameraRecording) && rest == readings
    {
      if isMotionStart {
        motionActive := true;
        if !cameraRecording && !surveillancePaused {
          rest := StartRecording(readings);
        } else {
          rest := readings;
        }
      } else {
        motionActive := false;
        rest := readings;
      }
    }

    /** `_start_recording`: start the camera (a no-op if it already
        records), alert, then run the timer. */
    method StartRecording(readings: seq<bool>) returns (rest: seq<bool>)
      requires maxVideoLength > 0
      modifies this`motionActive, this`cameraRecording, this`effects
      decreases |readings|, 1
      ensures var o := Run(readings, bufferTimeSteps, maxVideoLength, surveillancePaused, true, old(motionActive));
              && effects == old(effects) + (if old(cameraRecording) then [] else [StartCapture]) + [Alert] + o.effects
              && rest == o.rest && cameraRecording == o.recording && motionActive == o.motion
    {
      if !cameraRecording {
        effects := effects + [StartCapture];
        cameraRecording := true;
      }
      effects := effects + [Alert];
      rest := Timer(readings);
    }

    /** `_stop_recording`: stop the camera and deliver the video, both only
        if it was recording. */
    method StopRecording()
      modifies this`cameraRecording, this`effects
      ensures !cameraRecording
      ensures effects == old(effects) + (if old(cameraRecording) then [StopAndDeliver] else [])
    {
      if cameraRecording {
        effects := effects + [StopAndDeliver];
        cameraRecording := false;
      }
    }

    /** The loop of `_timer`: one tick per reading, for at most
        `maxVideoLength` ticks, counting consecutive inactive ticks and
        leaving the loop once the count reaches `bufferTimeSteps`. `t` is
        the tick at which it left, or one past the last tick. */
    method Watch(readings: seq<bool>) returns (t: nat)
      modifies this`motionActive
      ensures var n := if |readings| < maxVideoLength then |readings| else maxVideoLength;
              && t == FirstReach(readings, bufferTimeSteps, n)
              && motionActive == if t <= n then readings[t - 1] else if n == 0 then old(motionActive) else readings[n - 1]
    {
      ghost var n := if |readings| < maxVideoLength then |readings| else maxVideoLength;
      var inactive := 0;
      var i := 0;
      while i < maxVideoLength
        invariant i <= maxVideoLength && i <= |readings|
        invariant inactive == Streak(readings, i)
        invariant forall u :: 1 <= u <= i ==> Streak(readings, u) < bufferTimeSteps
        invariant motionActive == if i == 0 then old(motionActive) else readings[i - 1]
      {
        if i == |readings| {
          // the readings end inside the session: the model's horizon
          assert FirstReach(readings, bufferTimeSteps, n) == n + 1;
          return i + 1;
        }
        motionActive := readings[i];
        if !motionActive {
          inactive := inactive + 1;
        } else {
          inactive := 0;
        }
        i := i + 1;
        if inactive >= bufferTimeSteps {
          FirstReachIsFirst(readings, bufferTimeSteps, n, i);
          return i;
        }
      }
      assert FirstReach(readings, bufferTimeSteps, n) == n + 1;
      t := i + 1;
    }

    /** `_timer`: watch one session; on a debounce stop the recording; after
        the last tick stop it and start a new one unless paused. */
    method Timer(readings: seq<bool>) returns (rest: seq<bool>)
      requires maxVideoLength > 0
      modifies this`motionActive, this`cameraRecording, this`effects
      decreases |readings|, 0
      ensures var o := Run(readings, bufferTimeSteps, maxVideoLength, surveillancePaused, old(cameraRecording), old(motionActive));
              && effects == old(effects) + o.effects
              && rest == o.rest && cameraRecording == o.recording && motionActive == o.motion
    {
      var n := if |readings| < maxVideoLength then |readings| else maxVideoLength;
      var t := Watch(readings);
      ghost var recording, motion := cameraRecording, old(motionActive);
      if t <= n {
        DebounceStopsAtFirstReach(readings, bufferTimeSteps, maxVideoLength, surveillancePaused, recording, motion, t);
        StopRecording();
        rest := readings[t..];
      } else if |readings| < maxVideoLength {
        RunAtHorizon(readings, bufferTimeSteps, maxVideoLength, surveillancePaused, recording, motion);
        rest := [];
      } else if cameraRecording {
        RunAtCap(readings, bufferTimeSteps, maxVideoLength, surveillancePaused, recording, motion);
        StopRecording();
        if !surveillancePaused {
          ghost var before := effects;
          rest := StartRecording(readings[maxVideoLength..]);
          ghost var next := Run(readings[maxVideoLength..], bufferTimeSteps, maxVideoLength, surveillancePaused, true, readings[maxVideoLength - 1]);
          assert effects == before + [StartCapture] + [Alert] + next.effects;
          assert before == old(effects) + [StopAndDeliver];
          RestartLog(old(effects), next.effects);
        } else {
          rest := readings[maxVideoLength..];
        }
      } else {
        RunAtCap(readings, bufferTimeSteps, maxVideoLength, surveillancePaused, recording, motion);
        rest := readings[maxVideoLength..];
      }
    }
  }
}
