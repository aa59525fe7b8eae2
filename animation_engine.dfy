/**
 * The camera rule tables of the animation engine: emotion -> camera mode,
 * camera mode -> intensity and FFmpeg filter template, and the ffmpeg command
 * that animates one still image. The clip duration (an ffprobe measurement in
 * the program) is a parameter.
 */
module AnimationEngine {
  import opened Strings
  import AudioIntelligence

  /** The video settings read from the environment (defaults 24 fps, 1920x1080). */
  datatype VideoConfig = VideoConfig(fps: nat, width: nat, height: nat)

  const DEFAULT_CONFIG := VideoConfig(24, 1920, 1080)

  // ---------------------------------------------------------------------------
  // Rule tables
  // ---------------------------------------------------------------------------

  /** The camera modes; `Name` is the spelling the tables use. */
  datatype Mode = STATIC | ZOOM_IN | ZOOM_OUT | PAN_LEFT | PAN_RIGHT | SHAKE | SHAKE_AGRESSIVE | ZOOM_IN_FAST

  function Name(m: Mode): string {
    match m
    case STATIC => "STATIC"
    case ZOOM_IN => "ZOOM_IN"
    case ZOOM_OUT => "ZOOM_OUT"
    case PAN_LEFT => "PAN_LEFT"
    case PAN_RIGHT => "PAN_RIGHT"
    case SHAKE => "SHAKE"
    case SHAKE_AGRESSIVE => "SHAKE_AGRESSIVE"
    case ZOOM_IN_FAST => "ZOOM_IN_FAST"
  }

  const EMOTION_TO_CAMERA: map<string, Mode> := map[
    "CALM" := STATIC,
    "HAPPY" := ZOOM_IN,
    "ANGRY" := SHAKE,
    "SAD" := PAN_LEFT,
    "SURPRISED" := ZOOM_OUT,
    "FIGHT" := SHAKE_AGRESSIVE,
    "DRAMATIC" := ZOOM_IN_FAST,
    "UNKNOWN" := STATIC]

  const INTENSITY_MAP: map<Mode, string> := map[
    STATIC := "low",
    ZOOM_IN := "medium",
    ZOOM_OUT := "medium",
    PAN_LEFT := "low",
    PAN_RIGHT := "low",
    SHAKE := "high",
    SHAKE_AGRESSIVE := "high",
    ZOOM_IN_FAST := "high"]

  /** A filter template: literal text with the `{frames}`, `{fps}`, `{w}` and `{h}` holes. */
  datatype Piece = Text(text: string) | FramesHole | FpsHole | WidthHole | HeightHole

  type Template = seq<Piece>

  /** Every template ends by forcing the output frame rate. */
  function WithFps(body: Template): Template {
    body + [Text(",fps="), FpsHole]
  }

  const STATIC_BODY: Template :=
    [Text("scale="), WidthHole, Text(":"), HeightHole,
     Text(":force_original_aspect_ratio=decrease,pad="), WidthHole, Text(":"), HeightHole,
     Text(":(ow-iw)/2:(oh-ih)/2")]

  function ZoomPanBody(z: string): Template {
    [Text("scale=2500:-1,zoompan=z='" + z + "':d="), FramesHole,
     Text(":x='iw/2-(iw/zoom/2)':y='ih/2-(ih/zoom/2)':s="), WidthHole, Text("x"), HeightHole]
  }

  function PanBody(progress: string, close: string): Template {
    [Text("scale=-1:"), HeightHole, Text(",crop="), WidthHole, Text(":"), HeightHole,
     Text(":'max(0, min(iw-"), WidthHole, Text(", (iw-"), WidthHole, Text(")*" + progress), FramesHole,
     Text(close + "':0")]
  }

  function ShakeBody(amplitude: string, period: string): Template {
    [Text("scale=2000:-1,crop="), WidthHole, Text(":"), HeightHole,
     Text(":'max(0, min(iw-"), WidthHole, Text(", (iw-"), WidthHole,
     Text(")/2+" + amplitude + "*sin(2*PI*n/("), FpsHole, Text("*" + period + "))))':'max(0, min(ih-"),
     HeightHole, Text(", (ih-"), HeightHole,
     Text(")/2+" + amplitude + "*cos(2*PI*n/("), FpsHole, Text("*" + period + "))))'")]
  }

  /** The template of each mode before its closing `,fps={fps}`. */
  function TemplateBody(m: Mode): Template {
    match m
    case STATIC => STATIC_BODY
    case ZOOM_IN => ZoomPanBody("min(zoom+0.001,1.5)")
    case ZOOM_OUT => ZoomPanBody("max(1.5-0.001*on,1.0)")
    case PAN_LEFT => PanBody("n/", "))")
    case PAN_RIGHT => PanBody("(1-n/", ")))")
    case SHAKE => ShakeBody("15", "0.15")
    case SHAKE_AGRESSIVE => ShakeBody("40", "0.1")
    case ZOOM_IN_FAST => ZoomPanBody("min(zoom+0.005,1.5)")
  }

  const ALL_MODES: set<Mode> :=
    {STATIC, ZOOM_IN, ZOOM_OUT, PAN_LEFT, PAN_RIGHT, SHAKE, SHAKE_AGRESSIVE, ZOOM_IN_FAST}

  /** The filter template of every camera mode. */
  const CAMERA_TO_FILTER: map<Mode, Template> := map m | m in ALL_MODES :: WithFps(TemplateBody(m))

  // ---------------------------------------------------------------------------
  // Lookups
  // ---------------------------------------------------------------------------

  /** `EMOTION_TO_CAMERA.get(emotion.upper(), "STATIC")` */
  function CameraMode(emotion: string): (mode: Mode)
    ensures Upper(emotion) in EMOTION_TO_CAMERA ==> mode == EMOTION_TO_CAMERA[Upper(emotion)]
    ensures Upper(emotion) !in EMOTION_TO_CAMERA ==> mode == STATIC
  {
    var key := Upper(emotion);
    if key in EMOTION_TO_CAMERA then EMOTION_TO_CAMERA[key] else STATIC
  }

  /** Both mode tables cover every mode. */
  lemma ModeTablesTotal(m: Mode)
    ensures m in INTENSITY_MAP && m in CAMERA_TO_FILTER
  {
    match m
    case STATIC =>
    case ZOOM_IN =>
    case ZOOM_OUT =>
    case PAN_LEFT =>
    case PAN_RIGHT =>
    case SHAKE =>
    case SHAKE_AGRESSIVE =>
    case ZOOM_IN_FAST =>
  }

  /** `intensity_map.get(camera_mode, "low")`: fast or violent motion is "high", zooms are "medium". */
  function Intensity(mode: Mode): (r: string)
    ensures r == "high" <==> mode == SHAKE || mode == SHAKE_AGRESSIVE || mode == ZOOM_IN_FAST
    ensures r == "medium" <==> mode == ZOOM_IN || mode == ZOOM_OUT
    ensures r == "low" <==> mode == STATIC || mode == PAN_LEFT || mode == PAN_RIGHT
  {
    assert "low" != "high" && "low" != "medium" && "medium" != "high";
    ModeTablesTotal(mode);
    if mode in INTENSITY_MAP then INTENSITY_MAP[mode] else "low"
  }

  /** The action name the audio compiler receives: the mode's name, lower-cased. */
  function Action(mode: Mode): (a: string)
    ensures a == Lower(Name(mode))
  {
    match mode
    case STATIC => "static"
    case ZOOM_IN => "zoom_in"
    case ZOOM_OUT => "zoom_out"
    case PAN_LEFT => "pan_left"
    case PAN_RIGHT => "pan_right"
    case SHAKE => "shake"
    case SHAKE_AGRESSIVE => "shake_agressive"
    case ZOOM_IN_FAST => "zoom_in_fast"
  }

  /** The dict returned by `get_camera_timing`. */
  datatype CameraTimingInfo = CameraTimingInfo(action: string, duration: real, intensity: string)

  /** `get_camera_timing` */
  function GetCameraTiming(emotion: string, duration: real): (t: CameraTimingInfo)
    ensures t.action == Lower(Name(CameraMode(emotion)))
    ensures t.duration == duration
    ensures t.intensity == Intensity(CameraMode(emotion))
  {
    var mode := CameraMode(emotion);
    CameraTimingInfo(Action(mode), duration, Intensity(mode))
  }

  /** Every mode the emotion table can produce has a filter template and an intensity. */
  lemma EveryModeHasTemplate()
    ensures forall e :: e in EMOTION_TO_CAMERA ==>
      EMOTION_TO_CAMERA[e] in CAMERA_TO_FILTER && EMOTION_TO_CAMERA[e] in INTENSITY_MAP
  {
  }

  /** An emotion the table does not know is filmed like a calm one. */
  lemma UnknownEmotionIsStatic(emotion: string, duration: real)
    requires Upper(emotion) !in EMOTION_TO_CAMERA
    ensures GetCameraTiming(emotion, duration) == GetCameraTiming("calm", duration)
    ensures GetCameraTiming(emotion, duration) == CameraTimingInfo("static", duration, "low")
  {
    assert Upper("calm") == "CALM";
  }

  /**
   * The camera record feeds the audio compiler: the attack sound fires at the
   * very start exactly for the high-intensity camera motions.
   */
  lemma HighIntensityIsSudden(emotion: string, duration: real)
    ensures AudioIntelligence.IsSuddenAction(GetCameraTiming(emotion, duration).action)
        <==> GetCameraTiming(emotion, duration).intensity == "high"
  {
  }

  // ---------------------------------------------------------------------------
  // Frame count and the filter string
  // ---------------------------------------------------------------------------

  /** `math.ceil(x)` */
  function Ceil(x: real): (n: int)
    ensures n as real - 1.0 < x <= n as real
  {
    -((-x).Floor)
  }

  /** `math.ceil(duration * FPS)` */
  function FrameCount(duration: real, fps: nat): (frames: int)
    ensures frames as real - 1.0 < duration * fps as real <= frames as real
    ensures duration > 0.0 && fps > 0 ==> frames >= 1
  {
    Ceil(duration * fps as real)
  }

  function RenderPiece(p: Piece, frames: int, cfg: VideoConfig): string {
    match p
    case Text(s) => s
    case FramesHole => IntToString(frames)
    case FpsHole => NatToString(cfg.fps)
    case WidthHole => NatToString(cfg.width)
    case HeightHole => NatToString(cfg.height)
  }

  /** `template.format(frames=..., fps=..., w=..., h=...)` */
  function Render(t: Template, frames: int, cfg: VideoConfig): string {
    if t == [] then "" else RenderPiece(t[0], frames, cfg) + Render(t[1..], frames, cfg)
  }

  lemma {:induction false} RenderAppend(a: Template, b: Template, frames: int, cfg: VideoConfig)
    ensures Render(a + b, frames, cfg) == Render(a, frames, cfg) + Render(b, frames, cfg)
  {
    if a == [] {
      assert a + b == b;
    } else {
      assert (a + b)[0] == a[0];
      assert (a + b)[1..] == a[1..] + b;
      RenderAppend(a[1..], b, frames, cfg);
    }
  }

  /** `CAMERA_TO_FILTER.get(mode, CAMERA_TO_FILTER["STATIC"])`, rendered. */
  function Filter(mode: Mode, frames: int, cfg: VideoConfig): string {
    Render(if mode in CAMERA_TO_FILTER then CAMERA_TO_FILTER[mode] else CAMERA_TO_FILTER[STATIC], frames, cfg)
  }

  /** A template closed by `WithFps` renders to a string ending in ",fps=<fps>". */
  lemma RenderWithFps(body: Template, frames: int, cfg: VideoConfig)
    ensures var f, tail := Render(WithFps(body), frames, cfg), ",fps=" + NatToString(cfg.fps);
      |tail| <= |f| && f[|f| - |tail|..] == tail
  {
    RenderAppend(body, [Text(",fps="), FpsHole], frames, cfg);
    assert Render([FpsHole], frames, cfg) == NatToString(cfg.fps) by {
      assert [FpsHole][1..] == [];
    }
    assert Render([Text(",fps="), FpsHole], frames, cfg) == ",fps=" + NatToString(cfg.fps) by {
      assert [Text(",fps="), FpsHole][1..] == [FpsHole];
    }
  }

  /** The fallback to the static template never applies: every mode has its own. */
  lemma FilterOfMode(mode: Mode, frames: int, cfg: VideoConfig)
    ensures Filter(mode, frames, cfg) == Render(WithFps(TemplateBody(mode)), frames, cfg)
  {
    ModeTablesTotal(mode);
  }

  /** Every rendered filter ends by resampling to the configured frame rate. */
  lemma FilterEndsWithFps(mode: Mode, frames: int, cfg: VideoConfig)
    ensures var f, tail := Filter(mode, frames, cfg), ",fps=" + NatToString(cfg.fps);
      |tail| <= |f| && f[|f| - |tail|..] == tail
  {
    FilterOfMode(mode, frames, cfg);
    RenderWithFps(TemplateBody(mode), frames, cfg);
  }

  // ---------------------------------------------------------------------------
  // generate_animation_command
  // ---------------------------------------------------------------------------

  /** The two inputs: the still image, looped, and the narration audio. */
  function InputArgs(imagePath: string, audioPath: string): seq<string> {
    ["ffmpeg", "-y", "-loop", "1", "-i", imagePath, "-i", audioPath]
  }

  /** Duration, filter, codecs and the forced output frame rate. */
  function EncodeArgs(durationText: string, vf: string, fps: nat): seq<string> {
    ["-t", durationText, "-vf", vf, "-c:v", "libx264", "-pix_fmt", "yuv420p",
     "-r", NatToString(fps), "-c:a", "aac", "-b:a", "192k", "-shortest"]
  }

  /** The argument vector around a rendered filter `vf`: inputs, encoding options, output last. */
  function CommandOf(imagePath: string, audioPath: string, outputPath: string,
                     durationText: string, vf: string, fps: nat): (cmd: seq<string>)
    ensures |cmd| == 24
    ensures cmd[..8] == InputArgs(imagePath, audioPath)
    ensures cmd[8] == "-t" && cmd[9] == durationText
    ensures cmd[10] == "-vf" && cmd[11] == vf
    ensures cmd[16] == "-r" && cmd[17] == NatToString(fps)
    ensures cmd[|cmd| - 1] == outputPath
  {
    InputArgs(imagePath, audioPath) + EncodeArgs(durationText, vf, fps) + [outputPath]
  }

  /**
   * `generate_animation_command`. `durationText` is the three-decimal rendering
   * of the measured duration, which the model does not compute.
   */
  function GenerateAnimationCommand(
    imagePath: string, audioPath: string, outputPath: string, emotion: string,
    duration: real, durationText: string, cfg: VideoConfig): (cmd: seq<string>)
    ensures |cmd| == 24
    ensures cmd[..8] == InputArgs(imagePath, audioPath)
    ensures cmd[8] == "-t" && cmd[9] == durationText
    ensures cmd[10] == "-vf" && cmd[11] == Filter(CameraMode(emotion), FrameCount(duration, cfg.fps), cfg)
    ensures cmd[16] == "-r" && cmd[17] == NatToString(cfg.fps)
    ensures cmd[|cmd| - 1] == outputPath
  {
    var frames := FrameCount(duration, cfg.fps);
    CommandOf(imagePath, audioPath, outputPath, durationText,
              Filter(CameraMode(emotion), frames, cfg), cfg.fps)
  }
}
