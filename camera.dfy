/** The recording guard of camera.py. The PiCamera driver and the shell are
    opaque: what the camera object asks of them is appended to `effects`. */
module Cameras {
  import opened Utils

  /** `cfg.CAMERA_RECORDING_FORMAT` and `cfg.CAMERA_CONVERTING_FORMAT`. */
  const RecordingFormat: string := ".h264"
  const ConvertingFormat: string := ".mp4"

  /** Length of the random video names. */
  const VideoNameLength: nat := 14

  datatype CameraEffect =
    | DriverStart(file: string)   // PiCamera.start_recording(file)
    | DriverStop                  // PiCamera.stop_recording()
    | Shell(command: string)      // shell_cmd(command)

  class Camera {
    var isRecording: bool
    var videoName: string
    var effects: seq<CameraEffect>

    const videoFolder: string
    const recordingFormat: string
    const convertingFormat: string
    /** `cfg.OVERRIDE_VIDEO`: reuse one file name for every video. */
    const overrideVideo: bool

    constructor(videoFolder: string, overrideVideo: bool)
      ensures !isRecording && videoName == "video" && effects == []
      ensures this.videoFolder == videoFolder && this.overrideVideo == overrideVideo
      ensures recordingFormat == RecordingFormat && convertingFormat == ConvertingFormat
    {
      isRecording := false;
      videoName := "video";
      effects := [];
      this.videoFolder := videoFolder;
      this.recordingFormat := RecordingFormat;
      this.convertingFormat := ConvertingFormat;
      this.overrideVideo := overrideVideo;
    }

    /** The converted file's path, which `stop_recording` returns. */
    function VideoPath(name: string): (path: string)
      reads this
    {
      videoFolder + name + convertingFormat
    }

    /** `_convert`'s command: convert the raw recording into the video path,
        then delete the raw recording. */
    function ConvertCommand(name: string): (cmd: string)
      reads this
      ensures var raw := name + recordingFormat;
        && |cmd| == 18 + 2 * |raw| + |VideoPath(name)|
        && cmd[..12] == "MP4Box -add "
        && cmd[12..12 + |raw|] == raw
        && cmd[12 + |raw|] == ' '
        && cmd[13 + |raw|..13 + |raw| + |VideoPath(name)|] == VideoPath(name)
        && cmd[13 + |raw| + |VideoPath(name)|..] == "; rm " + raw
    {
      "MP4Box -add " + (name + recordingFormat) + " " + VideoPath(name) + "; rm " + (name + recordingFormat)
    }

    /** `_set_video_name`: a fresh random name unless names are reused.
        `pick` stands for the random choices of `randomstr(14)`. */
    method SetVideoName(pick: nat -> nat)
      modifies this`videoName
      ensures overrideVideo ==> videoName == old(videoName)
      ensures !overrideVideo ==> videoName == RandomStr(VideoNameLength, pick)
      ensures !overrideVideo ==> |videoName| == VideoNameLength
    {
      if !overrideVideo {
        videoName := RandomStr(VideoNameLength, pick);
      }
    }

    /** `start_recording`: a no-op while recording; otherwise pick the name,
        start the driver on the raw file and raise the flag. */
    method StartRecording(pick: nat -> nat)
      modifies this`isRecording, this`videoName, this`effects
      ensures old(isRecording) ==> isRecording && videoName == old(videoName) && effects == old(effects)
      ensures !old(isRecording) ==>
                && isRecording
                && videoName == (if overrideVideo then old(videoName) else RandomStr(VideoNameLength, pick))
                && effects == old(effects) + [DriverStart(videoName + recordingFormat)]
    {
      if !isRecording {
        SetVideoName(pick);
        effects := effects + [DriverStart(videoName + recordingFormat)];
        isRecording := true;
      }
    }

    /** `stop_recording`: None while not recording; otherwise stop the
        driver, convert, lower the flag and return the converted path. */
    method StopRecording() returns (video: Option<string>)
      modifies this`isRecording, this`effects
      ensures !isRecording
      ensures !old(isRecording) ==> video == None && effects == old(effects)
      ensures old(isRecording) ==>
                && video == Some(VideoPath(videoName))
                && effects == old(effects) + [DriverStop, Shell(ConvertCommand(videoName))]
    {
      if isRecording {
        effects := effects + [DriverStop, Shell(ConvertCommand(videoName))];
        isRecording := false;
        video := Some(VideoPath(videoName));
      } else {
        video := None;
      }
    }
  }

  /** One recording cycle: the raw file the driver records is the one the
      conversion reads and then deletes, and the returned path is the one
      the conversion writes. `effects` is the camera's log of the cycle. */
  method RecordOnce(folder: string, overrideVideo: bool, pick: nat -> nat)
    returns (raw: string, video: Option<string>, command: string, effects: seq<CameraEffect>)
    ensures video.Some?
    ensures effects == [DriverStart(raw), DriverStop, Shell(command)]
    ensures command == "MP4Box -add " + raw + " " + video.value + "; rm " + raw
    ensures exists name :: video.value == folder + name + ConvertingFormat && raw == name + RecordingFormat
  {
    var cam := new Camera(folder, overrideVideo);
    cam.StartRecording(pick);
    raw := cam.videoName + cam.recordingFormat;
    video := cam.StopRecording();
    command := cam.ConvertCommand(cam.videoName);
    effects := cam.effects;
  }
}
