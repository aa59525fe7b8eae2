/**
 * The per-scene audio mix: the audio decision becomes an ordered list of
 * ffmpeg inputs (0 is the video), one filter per added track, the list of
 * streams to mix and the stream mapped to the output. The plan is kept as
 * structured data; the ffmpeg strings themselves (and Python's rendering of
 * floats inside them) are not built. ffprobe results and file existence are
 * parameters.
 */
module Composer {
  import opened Wrappers
  import opened Strings
  import AudioIntelligence

  const SAMPLE_RATE := 44100
  const FADE := 0.5
  const DUCKED_BGM_GAIN := 0.2
  const BGM_GAIN := 0.3
  const AMBIENCE_GAIN := 0.2
  const SFX_GAIN := 0.8
  const STINGER_GAIN := 0.6
  const NARRATION_GAIN := 1.0
  const DUCKED_DIALOGUE_GAIN := 0.6
  const ATTACK_DB := -4
  const PERSONALITY_DB := -8

  /** The dialogue is always the first input after the video. */
  const DIALOGUE_INDEX := 1

  /** `narration_placement`: "before", "over", "after", "none", or any other text. */
  datatype Placement = PlaceBefore | PlaceOver | PlaceAfter | PlaceNone | PlaceOther

  function PlacementOf(text: string): Placement {
    if text == "before" then PlaceBefore
    else if text == "over" then PlaceOver
    else if text == "after" then PlaceAfter
    else if text == "none" then PlaceNone
    else PlaceOther
  }

  /** The entries `mix_scene_audio` reads from the audio parameters. */
  datatype MixParams = MixParams(
    bgmFile: Option<string>,
    ambienceFile: Option<string>,
    sfxFile: Option<string>,
    sfxTimestamp: Option<real>,
    introStinger: Option<string>,
    outroStinger: Option<string>,
    silenceBefore: real,
    duckBgm: bool,
    placement: Placement,
    attackAudio: Option<string>,
    attackTimestamp: Option<real>,
    personalityAudio: Option<string>,
    personalityTimestamp: Option<real>)

  /** The decision of the audio compiler as the mixer reads it; the compiler sets no personality cue. */
  function ParamsOf(d: AudioIntelligence.AudioDecision): MixParams {
    MixParams(d.bgmFile, d.ambienceFile, d.sfxFile, d.sfxTimestamp, d.introStinger, d.outroStinger,
              d.silenceBefore, d.duckBgm, PlacementOf(d.narrationPlacement), d.attackAudio, d.attackTimestamp,
              None, None)
  }

  /**
   * The scene facts: the paths passed in, the probed scene and outro-stinger
   * durations, and the files that exist.
   */
  datatype Scene = Scene(
    videoPath: string,
    dialoguePath: string,
    narrationPath: Option<string>,
    sceneDuration: real,
    outroStingerDuration: real,
    existing: set<string>)

  // ---------------------------------------------------------------------------
  // Track selection
  // ---------------------------------------------------------------------------

  datatype Track = Dialogue | Narration | Bgm | Ambience | Sfx | IntroStinger | OutroStinger | Attack | Personality

  /** `path and os.path.exists(path)` */
  predicate Present(path: Option<string>, existing: set<string>) {
    Truthy(path) && path.value in existing
  }

  predicate UsesNarration(p: MixParams, s: Scene) {
    Truthy(s.narrationPath) && p.placement != PlaceNone
  }

  predicate UsesBgm(p: MixParams, s: Scene) {
    Present(p.bgmFile, s.existing)
  }

  /** Ambience only when there is no background music. */
  predicate UsesAmbience(p: MixParams, s: Scene) {
    !UsesBgm(p, s) && Present(p.ambienceFile, s.existing)
  }

  /** The SFX also needs a timestamp. */
  predicate UsesSfx(p: MixParams, s: Scene) {
    Present(p.sfxFile, s.existing) && p.sfxTimestamp.Some?
  }

  predicate UsesIntro(p: MixParams, s: Scene) {
    !UsesSfx(p, s) && Present(p.introStinger, s.existing)
  }

  predicate UsesOutro(p: MixParams, s: Scene) {
    !UsesSfx(p, s) && !Present(p.introStinger, s.existing) && Present(p.outroStinger, s.existing)
  }

  predicate UsesAttack(p: MixParams, s: Scene) {
    Present(p.attackAudio, s.existing) && p.attackTimestamp.Some?
  }

  predicate UsesPersonality(p: MixParams, s: Scene) {
    Present(p.personalityAudio, s.existing) && p.personalityTimestamp.Some?
  }

  function If(b: bool, t: Track): seq<Track> {
    if b then [t] else []
  }

  /** Which optional tracks a scene uses. */
  datatype Selection = Selection(
    narration: bool, bgm: bool, ambience: bool,
    sfx: bool, intro: bool, outro: bool,
    attack: bool, personality: bool)

  /** At most one background track and at most one impact track. */
  predicate Exclusive(sel: Selection) {
    && !(sel.bgm && sel.ambience)
    && !(sel.sfx && sel.intro) && !(sel.sfx && sel.outro) && !(sel.intro && sel.outro)
  }

  /** The if/elif chains of `mix_scene_audio`: the background and impact choices exclude each other. */
  function Select(p: MixParams, s: Scene): (sel: Selection)
    ensures Exclusive(sel)
    ensures sel.bgm || sel.ambience <==> Present(p.bgmFile, s.existing) || Present(p.ambienceFile, s.existing)
    ensures sel.sfx || sel.intro || sel.outro <==>
      UsesSfx(p, s) || Present(p.introStinger, s.existing) || Present(p.outroStinger, s.existing)
  {
    Selection(UsesNarration(p, s), UsesBgm(p, s), UsesAmbience(p, s),
              UsesSfx(p, s), UsesIntro(p, s), UsesOutro(p, s),
              UsesAttack(p, s), UsesPersonality(p, s))
  }

  /** The voice: the dialogue, then the narration when it is used. */
  function Voice(sel: Selection): seq<Track> {
    [Dialogue] + If(sel.narration, Narration)
  }

  /** At most one background track. */
  function Background(sel: Selection): seq<Track> {
    If(sel.bgm, Bgm) + If(sel.ambience, Ambience)
  }

  /** At most one impact track. */
  function Impact(sel: Selection): seq<Track> {
    If(sel.sfx, Sfx) + If(sel.intro, IntroStinger) + If(sel.outro, OutroStinger)
  }

  function TracksOf(sel: Selection): seq<Track> {
    Voice(sel) + Background(sel) + Impact(sel) + If(sel.attack, Attack) + If(sel.personality, Personality)
  }

  /**
   * The audio sources in the order their inputs are added: input `k + 1`
   * carries track `k`.
   */
  function Tracks(p: MixParams, s: Scene): seq<Track> {
    TracksOf(Select(p, s))
  }

  // ---------------------------------------------------------------------------
  // What each track contributes
  // ---------------------------------------------------------------------------

  /** One ffmpeg input and the options placed before its `-i`. */
  datatype Input =
    | Plain(path: string)                   // -i <path>
    | Looped(path: string, duration: real)  // -stream_loop -1 -t <duration> -i <path>
    | Delayed(path: string, offset: real)   // -itsoffset <offset> -i <path>

  /** The output labels the filters write, `[silence]` to `[final_audio]`. */
  datatype LabelName =
    | SilenceLabel | DialogueWithNarration | BgmDucked | BgmVol | AmbVol
    | SfxVol | StingerVol | AttackVol | PersonalityVol | FinalAudio

  /** The label as it is written in the filter graph, without its brackets. */
  function LabelText(l: LabelName): string {
    match l
    case SilenceLabel => "silence"
    case DialogueWithNarration => "dialogue_with_narration"
    case BgmDucked => "bgm_ducked"
    case BgmVol => "bgm_vol"
    case AmbVol => "amb_vol"
    case SfxVol => "sfx_vol"
    case StingerVol => "stinger_vol"
    case AttackVol => "attack_vol"
    case PersonalityVol => "personality_vol"
    case FinalAudio => "final_audio"
  }

  /** A stream of the filter graph: input `index`'s audio, or a filter's output label. */
  datatype Stream = In(index: nat) | Label(name: LabelName)

  /** One entry of `filter_parts`. */
  datatype FilterPart =
    | Silence(sampleRate: nat, duration: real)
    | Concat(first: nat, second: nat)
    | Over(narration: nat, narrationGain: real, dialogue: nat, dialogueGain: real)
    | Faded(input: nat, gain: real, fadeIn: real, fadeOutStart: real, fadeOut: real, out: LabelName)
    | Volume(input: nat, gain: real, out: LabelName)
    | VolumeDb(input: nat, db: int, out: LabelName)
    | Amix(streams: seq<Stream>)

  /** The outro stinger ends with the scene: `max(0, scene_duration - stinger_duration)`. */
  function OutroOffset(s: Scene): (r: real)
    ensures r >= 0.0 && r >= s.sceneDuration - s.outroStingerDuration
    ensures r == 0.0 || r == s.sceneDuration - s.outroStingerDuration
  {
    if s.sceneDuration - s.outroStingerDuration > 0.0 then s.sceneDuration - s.outroStingerDuration else 0.0
  }

  function InputFor(t: Track, p: MixParams, s: Scene): Input {
    match t
    case Dialogue => Plain(s.dialoguePath)
    case Narration => Plain(s.narrationPath.GetOr(""))
    case Bgm => Looped(p.bgmFile.GetOr(""), s.sceneDuration)
    case Ambience => Looped(p.ambienceFile.GetOr(""), s.sceneDuration)
    case Sfx => Delayed(p.sfxFile.GetOr(""), p.sfxTimestamp.GetOr(0.0))
    case IntroStinger => Plain(p.introStinger.GetOr(""))
    case OutroStinger => Delayed(p.outroStinger.GetOr(""), OutroOffset(s))
    case Attack => Delayed(p.attackAudio.GetOr(""), p.attackTimestamp.GetOr(0.0))
    case Personality => Delayed(p.personalityAudio.GetOr(""), p.personalityTimestamp.GetOr(0.0))
  }

  /** Background music is ducked to 0.2 when asked to or under "over" narration, else kept at 0.3. */
  predicate DuckBgm(p: MixParams, s: Scene) {
    p.duckBgm || (Truthy(s.narrationPath) && p.placement == PlaceOver)
  }

  function BgmGain(p: MixParams, s: Scene): real {
    if DuckBgm(p, s) then DUCKED_BGM_GAIN else BGM_GAIN
  }

  function BgmLabel(p: MixParams, s: Scene): LabelName {
    if DuckBgm(p, s) then BgmDucked else BgmVol
  }

  /** The filter of the track carried by input `k`. */
  function PartFor(t: Track, k: nat, p: MixParams, s: Scene): seq<FilterPart> {
    match t
    case Dialogue => []
    case Narration =>
      if p.placement == PlaceBefore then [Concat(k, DIALOGUE_INDEX)]
      else if p.placement == PlaceOver then [Over(k, NARRATION_GAIN, DIALOGUE_INDEX, DUCKED_DIALOGUE_GAIN)]
      else if p.placement == PlaceAfter then [Concat(DIALOGUE_INDEX, k)]
      else []
    case Bgm => [Faded(k, BgmGain(p, s), FADE, s.sceneDuration - FADE, FADE, BgmLabel(p, s))]
    case Ambience => [Faded(k, AMBIENCE_GAIN, FADE, s.sceneDuration - FADE, FADE, AmbVol)]
    case Sfx => [Volume(k, SFX_GAIN, SfxVol)]
    case IntroStinger => [Volume(k, STINGER_GAIN, StingerVol)]
    case OutroStinger => [Volume(k, STINGER_GAIN, StingerVol)]
    case Attack => [VolumeDb(k, ATTACK_DB, AttackVol)]
    case Personality => [VolumeDb(k, PERSONALITY_DB, PersonalityVol)]
  }

  predicate KnownPlacement(placement: Placement) {
    placement == PlaceBefore || placement == PlaceOver || placement == PlaceAfter
  }

  /** The stream the track carried by input `k` adds to the mix. */
  function StreamFor(t: Track, k: nat, p: MixParams, s: Scene): seq<Stream> {
    match t
    case Dialogue => if UsesNarration(p, s) then [] else [In(k)]
    case Narration => if KnownPlacement(p.placement) then [Label(DialogueWithNarration)] else []
    case Bgm => [Label(BgmLabel(p, s))]
    case Ambience => [Label(AmbVol)]
    case Sfx => [Label(SfxVol)]
    case IntroStinger => [Label(StingerVol)]
    case OutroStinger => [Label(StingerVol)]
    case Attack => [Label(AttackVol)]
    case Personality => [Label(PersonalityVol)]
  }

  function Inputs(ts: seq<Track>, p: MixParams, s: Scene): seq<Input> {
    if ts == [] then [] else Inputs(ts[..|ts| - 1], p, s) + [InputFor(ts[|ts| - 1], p, s)]
  }

  /** Track `k` is carried by the `k`-th added input. */
  lemma {:induction false} InputsAt(ts: seq<Track>, k: nat, p: MixParams, s: Scene)
    requires k < |ts|
    ensures |Inputs(ts, p, s)| == |ts| && Inputs(ts, p, s)[k] == InputFor(ts[k], p, s)
  {
    var n := |ts| - 1;
    InputsLength(ts[..n], p, s);
    if k < n {
      InputsAt(ts[..n], k, p, s);
    }
  }

  lemma {:induction false} InputsLength(ts: seq<Track>, p: MixParams, s: Scene)
    ensures |Inputs(ts, p, s)| == |ts|
  {
    if ts != [] {
      InputsLength(ts[..|ts| - 1], p, s);
    }
  }

  function Parts(ts: seq<Track>, p: MixParams, s: Scene): seq<FilterPart> {
    if ts == [] then [] else Parts(ts[..|ts| - 1], p, s) + PartFor(ts[|ts| - 1], |ts|, p, s)
  }

  function Streams(ts: seq<Track>, p: MixParams, s: Scene): seq<Stream> {
    if ts == [] then [] else Streams(ts[..|ts| - 1], p, s) + StreamFor(ts[|ts| - 1], |ts|, p, s)
  }

  function SilenceParts(p: MixParams): seq<FilterPart> {
    if p.silenceBefore > 0.0 then [Silence(SAMPLE_RATE, p.silenceBefore)] else []
  }

  /** Several streams are mixed into `[final_audio]`; a single one is mapped as it is. */
  function FinalMix(streams: seq<Stream>): seq<FilterPart> {
    if |streams| > 1 then [Amix(streams)] else []
  }

  function AudioMap(streams: seq<Stream>): Stream {
    if |streams| > 1 then Label(FinalAudio)
    else if streams != [] then streams[0]
    else In(DIALOGUE_INDEX)
  }

  /** The mix of one scene: inputs (0 is the video), filters, mixed streams, mapped stream. */
  datatype MixPlan = MixPlan(inputs: seq<Input>, filters: seq<FilterPart>, audioInputs: seq<Stream>, audioMap: Stream)

  /** The plan for the tracks of a selection. */
  function PlanOf(sel: Selection, p: MixParams, s: Scene): MixPlan {
    var ts := TracksOf(sel);
    var streams := Streams(ts, p, s);
    MixPlan([Plain(s.videoPath)] + Inputs(ts, p, s),
            SilenceParts(p) + Parts(ts, p, s) + FinalMix(streams),
            streams,
            AudioMap(streams))
  }

  function PlanFor(p: MixParams, s: Scene): MixPlan {
    PlanOf(Select(p, s), p, s)
  }

  /**
   * The plan of a scene: the video first, then one input per selected track;
   * several mixed streams end the filter graph with their `amix`.
   */
  lemma PlanShape(p: MixParams, s: Scene)
    ensures var r := PlanFor(p, s);
      |r.inputs| == |TracksOf(Select(p, s))| + 1 && r.inputs[0] == Plain(s.videoPath)
    ensures var r := PlanFor(p, s);
      |r.audioInputs| > 1 ==> r.filters != [] && r.filters[|r.filters| - 1] == Amix(r.audioInputs)
  {
    InputsLength(TracksOf(Select(p, s)), p, s);
  }

  // ---------------------------------------------------------------------------
  // mix_scene_audio
  // ---------------------------------------------------------------------------

  /** The builder state of `mix_scene_audio`: its three lists and the next input index. */
  datatype Draft = Draft(inputs: seq<Input>, filterParts: seq<FilterPart>, audioInputs: seq<Stream>, inputIndex: nat)

  /** The draft holds exactly the contributions of the tracks `ts` added so far. */
  predicate Wired(b: Draft, ts: seq<Track>, p: MixParams, s: Scene) {
    && b.inputs == [Plain(s.videoPath)] + Inputs(ts, p, s)
    && b.filterParts == SilenceParts(p) + Parts(ts, p, s)
    && b.audioInputs == Streams(ts, p, s)
    && b.inputIndex == |ts| + 1
  }

  /** Adding a track appends its input, its filter and its stream. */
  lemma Extend(ts: seq<Track>, t: Track, p: MixParams, s: Scene)
    ensures Inputs(ts + [t], p, s) == Inputs(ts, p, s) + [InputFor(t, p, s)]
    ensures Parts(ts + [t], p, s) == Parts(ts, p, s) + PartFor(t, |ts| + 1, p, s)
    ensures Streams(ts + [t], p, s) == Streams(ts, p, s) + StreamFor(t, |ts| + 1, p, s)
  {
    ExtendInputs(ts, t, p, s);
    ExtendParts(ts, t, p, s);
    ExtendStreams(ts, t, p, s);
  }

  lemma ExtendInputs(ts: seq<Track>, t: Track, p: MixParams, s: Scene)
    ensures Inputs(ts + [t], p, s) == Inputs(ts, p, s) + [InputFor(t, p, s)]
  {
    assert (ts + [t])[..|ts|] == ts;
  }

  lemma ExtendParts(ts: seq<Track>, t: Track, p: MixParams, s: Scene)
    ensures Parts(ts + [t], p, s) == Parts(ts, p, s) + PartFor(t, |ts| + 1, p, s)
  {
    assert (ts + [t])[..|ts|] == ts;
  }

  lemma ExtendStreams(ts: seq<Track>, t: Track, p: MixParams, s: Scene)
    ensures Streams(ts + [t], p, s) == Streams(ts, p, s) + StreamFor(t, |ts| + 1, p, s)
  {
    assert (ts + [t])[..|ts|] == ts;
  }

  /** The draft after adding track `t` as the next input. */
  function Grow(b: Draft, t: Track, p: MixParams, s: Scene): Draft {
    Draft(b.inputs + [InputFor(t, p, s)],
          b.filterParts + PartFor(t, b.inputIndex, p, s),
          b.audioInputs + StreamFor(t, b.inputIndex, p, s),
          b.inputIndex + 1)
  }

  lemma GrowWired(b: Draft, ts: seq<Track>, t: Track, p: MixParams, s: Scene)
    requires Wired(b, ts, p, s)
    ensures Wired(Grow(b, t, p, s), ts + [t], p, s)
  {
    Extend(ts, t, p, s);
  }

  /** The silence source and the dialogue input, which every mix has. */
  method DialogueStage(p: MixParams, s: Scene) returns (b: Draft, dialogueIndex: nat)
    ensures b == Draft([Plain(s.videoPath), Plain(s.dialoguePath)], SilenceParts(p), [], 2)
    ensures dialogueIndex == DIALOGUE_INDEX
  {
    var inputs := [Plain(s.videoPath)];
    var filterParts: seq<FilterPart> := [];
    var inputIndex := 1;
    if p.silenceBefore > 0.0 {
      filterParts := filterParts + [Silence(SAMPLE_RATE, p.silenceBefore)];
    }
    inputs := inputs + [Plain(s.dialoguePath)];
    dialogueIndex := inputIndex;
    inputIndex := inputIndex + 1;
    b := Draft(inputs, filterParts, [], inputIndex);
  }

  /** How the narration joins the dialogue: before it, over it, or after it. */
  method NarrationFilter(p: MixParams, s: Scene, narrationIndex: nat, dialogueIndex: nat)
    returns (parts: seq<FilterPart>, streams: seq<Stream>)
    requires dialogueIndex == DIALOGUE_INDEX
    ensures parts == PartFor(Narration, narrationIndex, p, s)
    ensures streams == StreamFor(Narration, narrationIndex, p, s)
  {
    parts, streams := [], [];
    if p.placement == PlaceBefore {
      parts := [Concat(narrationIndex, dialogueIndex)];
      streams := [Label(DialogueWithNarration)];
    } else if p.placement == PlaceOver {
      parts := [Over(narrationIndex, NARRATION_GAIN, dialogueIndex, DUCKED_DIALOGUE_GAIN)];
      streams := [Label(DialogueWithNarration)];
    } else if p.placement == PlaceAfter {
      parts := [Concat(dialogueIndex, narrationIndex)];
      streams := [Label(DialogueWithNarration)];
    }
  }

  /** The narration input, or else the dialogue alone as the first mixed stream. */
  method NarrationStage(p: MixParams, s: Scene, b: Draft, dialogueIndex: nat)
    returns (b': Draft, ghost ts: seq<Track>)
    requires b == Draft([Plain(s.videoPath), Plain(s.dialoguePath)], SilenceParts(p), [], 2)
    requires dialogueIndex == DIALOGUE_INDEX
    ensures ts == Voice(Select(p, s))
    ensures Wired(b', ts, p, s)
  {
    ghost var empty := Draft([Plain(s.videoPath)], SilenceParts(p), [], 1);
    assert Wired(empty, [], p, s);
    GrowWired(empty, [], Dialogue, p, s);
    ghost var withDialogue := Grow(empty, Dialogue, p, s);
    if Truthy(s.narrationPath) && p.placement != PlaceNone {
      var narrationIndex := b.inputIndex;
      var parts, streams := NarrationFilter(p, s, narrationIndex, dialogueIndex);
      b' := Draft(b.inputs + [Plain(s.narrationPath.value)], b.filterParts + parts,
                  b.audioInputs + streams, b.inputIndex + 1);
      assert withDialogue == b;
      assert b' == Grow(withDialogue, Narration, p, s);
      GrowWired(withDialogue, [Dialogue], Narration, p, s);
      ts := [Dialogue] + [Narration];
    } else {
      b' := Draft(b.inputs, b.filterParts, b.audioInputs + [In(dialogueIndex)], b.inputIndex);
      assert b' == withDialogue;
      ts := [Dialogue];
      assert ts == [] + [Dialogue];
    }
  }

  /** One background track: looped music, or else looped ambience. */
  method BackgroundStage(p: MixParams, s: Scene, b: Draft, ghost ts: seq<Track>)
    returns (b': Draft, ghost ts': seq<Track>)
    requires Wired(b, ts, p, s)
    ensures ts' == ts + Background(Select(p, s))
    ensures Wired(b', ts', p, s)
  {
    b', ts' := b, ts;
    if Truthy(p.bgmFile) && p.bgmFile.value in s.existing {
      var bgmIndex := b.inputIndex;
      var gain, bgmLabel := BGM_GAIN, BgmVol;
      if p.duckBgm || (Truthy(s.narrationPath) && p.placement == PlaceOver) {
        gain, bgmLabel := DUCKED_BGM_GAIN, BgmDucked;
      }
      b' := Draft(b.inputs + [Looped(p.bgmFile.value, s.sceneDuration)],
                  b.filterParts + [Faded(bgmIndex, gain, FADE, s.sceneDuration - FADE, FADE, bgmLabel)],
                  b.audioInputs + [Label(bgmLabel)],
                  b.inputIndex + 1);
      assert b' == Grow(b, Bgm, p, s);
      GrowWired(b, ts, Bgm, p, s);
      ts' := ts + [Bgm];
    } else if Truthy(p.ambienceFile) && p.ambienceFile.value in s.existing {
      var ambIndex := b.inputIndex;
      b' := Draft(b.inputs + [Looped(p.ambienceFile.value, s.sceneDuration)],
                  b.filterParts + [Faded(ambIndex, AMBIENCE_GAIN, FADE, s.sceneDuration - FADE, FADE, AmbVol)],
                  b.audioInputs + [Label(AmbVol)],
                  b.inputIndex + 1);
      assert b' == Grow(b, Ambience, p, s);
      GrowWired(b, ts, Ambience, p, s);
      ts' := ts + [Ambience];
    }
  }

  /** One impact track, in priority order: the timed SFX, the intro stinger, the outro stinger. */
  method ImpactStage(p: MixParams, s: Scene, b: Draft, ghost ts: seq<Track>)
    returns (b': Draft, ghost ts': seq<Track>)
    requires Wired(b, ts, p, s)
    ensures ts' == ts + Impact(Select(p, s))
    ensures Wired(b', ts', p, s)
  {
    b', ts' := b, ts;
    if Truthy(p.sfxFile) && p.sfxFile.value in s.existing && p.sfxTimestamp.Some? {
      var sfxIndex := b.inputIndex;
      b' := Draft(b.inputs + [Delayed(p.sfxFile.value, p.sfxTimestamp.value)],
                  b.filterParts + [Volume(sfxIndex, SFX_GAIN, SfxVol)],
                  b.audioInputs + [Label(SfxVol)],
                  b.inputIndex + 1);
      assert b' == Grow(b, Sfx, p, s);
      GrowWired(b, ts, Sfx, p, s);
      ts' := ts + [Sfx];
    } else if Truthy(p.introStinger) && p.introStinger.value in s.existing {
      var stingerIndex := b.inputIndex;
      b' := Draft(b.inputs + [Plain(p.introStinger.value)],
                  b.filterParts + [Volume(stingerIndex, STINGER_GAIN, StingerVol)],
                  b.audioInputs + [Label(StingerVol)],
                  b.inputIndex + 1);
      assert b' == Grow(b, IntroStinger, p, s);
      GrowWired(b, ts, IntroStinger, p, s);
      ts' := ts + [IntroStinger];
    } else if Truthy(p.outroStinger) && p.outroStinger.value in s.existing {
      var stingerOffset := if s.sceneDuration - s.outroStingerDuration > 0.0
                           then s.sceneDuration - s.outroStingerDuration else 0.0;
      var stingerIndex := b.inputIndex;
      b' := Draft(b.inputs + [Delayed(p.outroStinger.value, stingerOffset)],
                  b.filterParts + [Volume(stingerIndex, STINGER_GAIN, StingerVol)],
                  b.audioInputs + [Label(StingerVol)],
                  b.inputIndex + 1);
      assert b' == Grow(b, OutroStinger, p, s);
      GrowWired(b, ts, OutroStinger, p, s);
      ts' := ts + [OutroStinger];
    }
  }

  /** The timed attack sound, at -4 dB. */
  method AttackStage(p: MixParams, s: Scene, b: Draft, ghost ts: seq<Track>)
    returns (b': Draft, ghost ts': seq<Track>)
    requires Wired(b, ts, p, s)
    ensures ts' == ts + If(UsesAttack(p, s), Attack)
    ensures Wired(b', ts', p, s)
  {
    b', ts' := b, ts;
    if Truthy(p.attackAudio) && p.attackAudio.value in s.existing && p.attackTimestamp.Some? {
      var attackIndex := b.inputIndex;
      b' := Draft(b.inputs + [Delayed(p.attackAudio.value, p.attackTimestamp.value)],
                  b.filterParts + [VolumeDb(attackIndex, ATTACK_DB, AttackVol)],
                  b.audioInputs + [Label(AttackVol)],
                  b.inputIndex + 1);
      assert b' == Grow(b, Attack, p, s);
      GrowWired(b, ts, Attack, p, s);
      ts' := ts + [Attack];
    }
  }

  /** The timed personality cue, at -8 dB. */
  method PersonalityStage(p: MixParams, s: Scene, b: Draft, ghost ts: seq<Track>)
    returns (b': Draft, ghost ts': seq<Track>)
    requires Wired(b, ts, p, s)
    ensures ts' == ts + If(UsesPersonality(p, s), Personality)
    ensures Wired(b', ts', p, s)
  {
    b', ts' := b, ts;
    if Truthy(p.personalityAudio) && p.personalityAudio.value in s.existing && p.personalityTimestamp.Some? {
      var personalityIndex := b.inputIndex;
      b' := Draft(b.inputs + [Delayed(p.personalityAudio.value, p.personalityTimestamp.value)],
                  b.filterParts + [VolumeDb(personalityIndex, PERSONALITY_DB, PersonalityVol)],
                  b.audioInputs + [Label(PersonalityVol)],
                  b.inputIndex + 1);
      assert b' == Grow(b, Personality, p, s);
      GrowWired(b, ts, Personality, p, s);
      ts' := ts + [Personality];
    }
  }

  /**
   * `mix_scene_audio`, up to the ffmpeg command: the plan of inputs, filters
   * and the mapped stream. It returns both the corrected `-map` argument
   * `mapArg` and the one the source writes, `writtenMapArg`; they differ
   * exactly when a single label is mixed.
   */
  method MixSceneAudio(p: MixParams, s: Scene) returns (plan: MixPlan, mapArg: string, writtenMapArg: string)
    ensures plan == PlanFor(p, s)
    ensures mapArg == MapArg(plan.audioMap) && ValidMapArg(mapArg)
    ensures writtenMapArg == MapArgAsWritten(plan.audioInputs)
    ensures writtenMapArg == mapArg <==> !(|plan.audioInputs| == 1 && plan.audioInputs[0].Label?)
  {
    var b, dialogueIndex := DialogueStage(p, s);
    ghost var ts;
    b, ts := NarrationStage(p, s, b, dialogueIndex);
    b, ts := BackgroundStage(p, s, b, ts);
    b, ts := ImpactStage(p, s, b, ts);
    b, ts := AttackStage(p, s, b, ts);
    b, ts := PersonalityStage(p, s, b, ts);
    assert ts == Tracks(p, s);
    var filterParts := b.filterParts;
    var audioMap;
    if |b.audioInputs| > 1 {
      filterParts := filterParts + [Amix(b.audioInputs)];
      audioMap := Label(FinalAudio);
      writtenMapArg := "[" + LabelText(FinalAudio) + "]";
    } else {
      audioMap := if b.audioInputs != [] then b.audioInputs[0] else In(DIALOGUE_INDEX);
      writtenMapArg := if b.audioInputs != [] then StreamSpec(b.audioInputs[0]) else NatToString(DIALOGUE_INDEX) + ":a";
    }
    plan := MixPlan(b.inputs, filterParts, b.audioInputs, audioMap);
    mapArg := MapArg(audioMap);
    MapArgAsWrittenValid(plan.audioInputs);
  }

  // ---------------------------------------------------------------------------
  // Properties of the plan
  // ---------------------------------------------------------------------------

  /** The position of each track in the fixed order of `mix_scene_audio`. */
  function Rank(t: Track): nat {
    match t
    case Dialogue => 0
    case Narration => 1
    case Bgm => 2
    case Ambience => 3
    case Sfx => 4
    case IntroStinger => 5
    case OutroStinger => 6
    case Attack => 7
    case Personality => 8
  }

  predicate Ordered(ts: seq<Track>) {
    forall i, j :: 0 <= i < j < |ts| ==> Rank(ts[i]) < Rank(ts[j])
  }

  /** Every track of `ts` ranks in `lo .. hi - 1`. */
  predicate RanksIn(ts: seq<Track>, lo: nat, hi: nat) {
    forall x :: x in ts ==> lo <= Rank(x) < hi
  }

  /** Joining two ordered track lists whose ranks lie in consecutive ranges. */
  lemma OrderedAppend(a: seq<Track>, b: seq<Track>, lo: nat, mid: nat, hi: nat)
    requires lo <= mid <= hi
    requires Ordered(a) && RanksIn(a, lo, mid)
    requires Ordered(b) && RanksIn(b, mid, hi)
    ensures Ordered(a + b) && RanksIn(a + b, lo, hi)
  {
    var r := a + b;
    forall i, j | 0 <= i < j < |r| ensures Rank(r[i]) < Rank(r[j]) {
      if i < |a| && j >= |a| {
        assert r[i] in a && r[j] in b;
      } else if i >= |a| {
        assert r[i] == b[i - |a|] && r[j] == b[j - |a|];
      }
    }
    forall x | x in r ensures lo <= Rank(x) < hi {
      assert x in a || x in b;
    }
  }

  lemma OptionalOrdered(b: bool, t: Track)
    ensures Ordered(If(b, t)) && RanksIn(If(b, t), Rank(t), Rank(t) + 1)
  {
  }

  lemma {:induction false} VoiceOrdered(sel: Selection)
    ensures Ordered(Voice(sel)) && RanksIn(Voice(sel), 0, 2)
  {
    OptionalOrdered(true, Dialogue);
    OptionalOrdered(sel.narration, Narration);
    assert [Dialogue] == If(true, Dialogue);
    OrderedAppend([Dialogue], If(sel.narration, Narration), 0, 1, 2);
  }

  lemma {:induction false} BackgroundOrdered(sel: Selection)
    ensures Ordered(Background(sel)) && RanksIn(Background(sel), 2, 4)
  {
    OptionalOrdered(sel.bgm, Bgm);
    OptionalOrdered(sel.ambience, Ambience);
    OrderedAppend(If(sel.bgm, Bgm), If(sel.ambience, Ambience), 2, 3, 4);
  }

  lemma {:induction false} ImpactOrdered(sel: Selection)
    ensures Ordered(Impact(sel)) && RanksIn(Impact(sel), 4, 7)
  {
    OptionalOrdered(sel.sfx, Sfx);
    OptionalOrdered(sel.intro, IntroStinger);
    OptionalOrdered(sel.outro, OutroStinger);
    OrderedAppend(If(sel.sfx, Sfx), If(sel.intro, IntroStinger), 4, 5, 6);
    OrderedAppend(If(sel.sfx, Sfx) + If(sel.intro, IntroStinger), If(sel.outro, OutroStinger), 4, 6, 7);
  }

  lemma {:induction false} TracksOrdered(sel: Selection)
    ensures Ordered(TracksOf(sel))
  {
    var v, bg, imp := Voice(sel), Background(sel), Impact(sel);
    VoiceOrdered(sel);
    BackgroundOrdered(sel);
    ImpactOrdered(sel);
    OptionalOrdered(sel.attack, Attack);
    OptionalOrdered(sel.personality, Personality);
    OrderedAppend(v, bg, 0, 2, 4);
    OrderedAppend(v + bg, imp, 0, 4, 7);
    OrderedAppend(v + bg + imp, If(sel.attack, Attack), 0, 7, 8);
    OrderedAppend(v + bg + imp + If(sel.attack, Attack), If(sel.personality, Personality), 0, 8, 9);
  }

  /** An ordered track list holds each track at most once. */
  lemma OrderedDistinct(ts: seq<Track>)
    requires Ordered(ts)
    ensures forall i, j :: 0 <= i < j < |ts| ==> ts[i] != ts[j]
  {
  }

  /** Whether a selection lists track `t`. */
  predicate Chosen(sel: Selection, t: Track) {
    match t
    case Dialogue => true
    case Narration => sel.narration
    case Bgm => sel.bgm
    case Ambience => sel.ambience
    case Sfx => sel.sfx
    case IntroStinger => sel.intro
    case OutroStinger => sel.outro
    case Attack => sel.attack
    case Personality => sel.personality
  }

  /** The dialogue comes first, and the narration, when chosen, second. */
  lemma SelectionHead(sel: Selection)
    ensures var ts := TracksOf(sel);
      && 1 <= |ts| && ts[0] == Dialogue
      && (sel.narration ==> 2 <= |ts| && ts[1] == Narration)
  {
    var v := Voice(sel);
    assert v[0] == Dialogue && (sel.narration ==> |v| == 2 && v[1] == Narration);
    var x := v + Background(sel);
    assert x[0] == Dialogue && (sel.narration ==> x[1] == Narration);
    var y := x + Impact(sel);
    assert y[0] == Dialogue && (sel.narration ==> y[1] == Narration);
    var z := y + If(sel.attack, Attack);
    assert z[0] == Dialogue && (sel.narration ==> z[1] == Narration);
    assert TracksOf(sel) == z + If(sel.personality, Personality);
  }

  /** Membership in a group of optional tracks. */
  lemma GroupMembers(sel: Selection)
    ensures forall t :: t in Voice(sel) <==> t == Dialogue || (sel.narration && t == Narration)
    ensures forall t :: t in Background(sel) <==> (sel.bgm && t == Bgm) || (sel.ambience && t == Ambience)
    ensures forall t :: t in Impact(sel) <==>
      (sel.sfx && t == Sfx) || (sel.intro && t == IntroStinger) || (sel.outro && t == OutroStinger)
  {
  }

  /** A selection lists exactly the tracks it chooses. */
  lemma SelectionMembers(sel: Selection)
    ensures forall t :: t in TracksOf(sel) <==> Chosen(sel, t)
  {
    var v, bg, imp := Voice(sel), Background(sel), Impact(sel);
    var at, pe := If(sel.attack, Attack), If(sel.personality, Personality);
    var ts := TracksOf(sel);
    GroupMembers(sel);
    forall t ensures t in ts <==> Chosen(sel, t) {
      assert t in ts <==> t in v || t in bg || t in imp || t in at || t in pe;
    }
  }

  /**
   * The tracks of a mix: the dialogue first, then the narration when used;
   * every track at most once, in the fixed order; at most one background and
   * at most one impact track; so never more than six sources.
   */
  lemma TracksShape(p: MixParams, s: Scene)
    ensures var ts, sel := Tracks(p, s), Select(p, s);
      && 1 <= |ts| <= 6 && ts[0] == Dialogue
      && (sel.narration ==> 2 <= |ts| && ts[1] == Narration)
      && Ordered(ts)
      && (forall i, j :: 0 <= i < j < |ts| ==> ts[i] != ts[j])
      && (forall t :: t in ts <==> Chosen(sel, t))
      && !(Bgm in ts && Ambience in ts)
      && (Sfx in ts ==> IntroStinger !in ts && OutroStinger !in ts)
      && (IntroStinger in ts ==> OutroStinger !in ts)
  {
    var sel := Select(p, s);
    TracksOrdered(sel);
    OrderedDistinct(TracksOf(sel));
    SelectionHead(sel);
    SelectionMembers(sel);
    SelectionSize(sel);
    SelectionExclusive(sel);
  }

  /** No more than six sources: dialogue, narration, one background, one impact, attack, personality. */
  lemma SelectionSize(sel: Selection)
    requires Exclusive(sel)
    ensures |TracksOf(sel)| <= 6
  {
    assert |Background(sel)| <= 1 && |Impact(sel)| <= 1;
  }

  /** The background and impact choices exclude each other. */
  lemma SelectionExclusive(sel: Selection)
    requires Exclusive(sel)
    ensures var ts := TracksOf(sel);
      && !(Bgm in ts && Ambience in ts)
      && (Sfx in ts ==> IntroStinger !in ts && OutroStinger !in ts)
      && (IntroStinger in ts ==> OutroStinger !in ts)
  {
    SelectionMembers(sel);
  }

  /** Adding a track (or not) appends its filter and its stream (or nothing). */
  lemma ExtendIf(ts: seq<Track>, b: bool, t: Track, p: MixParams, s: Scene)
    ensures Parts(ts + If(b, t), p, s) == Parts(ts, p, s) + (if b then PartFor(t, |ts| + 1, p, s) else [])
    ensures Streams(ts + If(b, t), p, s) == Streams(ts, p, s) + (if b then StreamFor(t, |ts| + 1, p, s) else [])
  {
    if b {
      Extend(ts, t, p, s);
    } else {
      assert ts + If(b, t) == ts;
    }
  }

  /** Whatever a track contributes is in the plan, at the input index it was given. */
  lemma {:induction false} PartsContain(ts: seq<Track>, k: nat, p: MixParams, s: Scene)
    requires k < |ts|
    ensures forall f :: f in PartFor(ts[k], k + 1, p, s) ==> f in Parts(ts, p, s)
    ensures forall st :: st in StreamFor(ts[k], k + 1, p, s) ==> st in Streams(ts, p, s)
    decreases |ts|
  {
    var init := ts[..|ts| - 1];
    if k < |ts| - 1 {
      PartsContain(init, k, p, s);
      assert init[k] == ts[k];
    }
  }

  /** The tracks after the voice. */
  function Rest(sel: Selection): seq<Track> {
    Background(sel) + Impact(sel) + If(sel.attack, Attack) + If(sel.personality, Personality)
  }

  lemma RestShape(sel: Selection)
    ensures TracksOf(sel) == Voice(sel) + Rest(sel)
    ensures Dialogue !in Rest(sel) && Narration !in Rest(sel)
  {
    GroupMembers(sel);
  }

  /** The voice's filters and streams: the narration filter and its output, or the dialogue input alone. */
  lemma VoiceWiring(p: MixParams, s: Scene)
    ensures var v := Voice(Select(p, s));
      && Parts(v, p, s) == (if UsesNarration(p, s) then PartFor(Narration, 2, p, s) else [])
      && Streams(v, p, s) == (if UsesNarration(p, s) then StreamFor(Narration, 2, p, s) else [In(DIALOGUE_INDEX)])
  {
    assert Streams([Dialogue], p, s) == StreamFor(Dialogue, 1, p, s) by {
      assert [Dialogue][..0] == [];
    }
    assert Parts([Dialogue], p, s) == [] by {
      assert [Dialogue][..0] == [];
    }
    ExtendIf([Dialogue], UsesNarration(p, s), Narration, p, s);
  }

  /** The mixed streams: the voice's, then labels of the later tracks only. */
  lemma PlanStreams(p: MixParams, s: Scene)
    ensures var sel := Select(p, s);
      && Streams(Tracks(p, s), p, s) == Streams(Voice(sel), p, s) + Streams(Rest(sel), p, s)
      && forall st :: st in Streams(Rest(sel), p, s) ==> st.Label? && st.name != DialogueWithNarration
  {
    var sel := Select(p, s);
    RestShape(sel);
    StreamsSplit(Voice(sel), Rest(sel), p, s);
    LaterStreamsAreLabels(Rest(sel), p, s);
  }

  /** The dialogue is input 1. */
  lemma DialogueInput(p: MixParams, s: Scene)
    ensures |PlanFor(p, s).inputs| >= 2 && PlanFor(p, s).inputs[1] == Plain(s.dialoguePath)
  {
    var sel := Select(p, s);
    SelectionHead(sel);
    InputInPlan(sel, p, s, 0);
  }

  /** The narration, when used, is input 2. */
  lemma NarrationInput(p: MixParams, s: Scene)
    requires UsesNarration(p, s)
    ensures |PlanFor(p, s).inputs| >= 3 && PlanFor(p, s).inputs[2] == Plain(s.narrationPath.value)
  {
    var sel := Select(p, s);
    SelectionHead(sel);
    InputInPlan(sel, p, s, 1);
  }

  /**
   * Narration "before" concatenates narration then dialogue, "after" dialogue
   * then narration, and "over" mixes the narration at 1.0 with the dialogue at 0.6.
   */
  lemma NarrationFilters(p: MixParams, s: Scene)
    requires UsesNarration(p, s)
    ensures p.placement == PlaceBefore ==> Concat(2, 1) in PlanFor(p, s).filters
    ensures p.placement == PlaceOver ==> Over(2, 1.0, 1, 0.6) in PlanFor(p, s).filters
    ensures p.placement == PlaceAfter ==> Concat(1, 2) in PlanFor(p, s).filters
  {
    var sel := Select(p, s);
    SelectionHead(sel);
    if p.placement == PlaceBefore {
      FilterInPlan(sel, p, s, 1, Concat(2, DIALOGUE_INDEX));
    } else if p.placement == PlaceOver {
      FilterInPlan(sel, p, s, 1, Over(2, NARRATION_GAIN, DIALOGUE_INDEX, DUCKED_DIALOGUE_GAIN));
    } else if p.placement == PlaceAfter {
      FilterInPlan(sel, p, s, 1, Concat(DIALOGUE_INDEX, 2));
    }
  }

  /**
   * With narration at a known placement the dialogue reaches the mix only
   * through `dialogue_with_narration`; at any other placement it does not
   * reach it at all. Without a narration path, or with placement "none", the
   * dialogue input is the first mixed stream.
   */
  lemma NarrationStreams(p: MixParams, s: Scene)
    ensures var plan := PlanFor(p, s);
      && (UsesNarration(p, s) ==>
            && In(DIALOGUE_INDEX) !in plan.audioInputs
            && (KnownPlacement(p.placement) <==>
                  Label(DialogueWithNarration) in plan.audioInputs))
      && (!UsesNarration(p, s) ==>
            && plan.audioInputs != [] && plan.audioInputs[0] == In(DIALOGUE_INDEX)
            && Label(DialogueWithNarration) !in plan.audioInputs)
  {
    if UsesNarration(p, s) {
      NarratedStreams(p, s);
    } else {
      UnnarratedStreams(p, s);
    }
  }

  /** The mixed streams are the voice's, then labels other than the narration's. */
  lemma VoiceThenLabels(p: MixParams, s: Scene)
    ensures var sel := Select(p, s);
      var sv, sr := Streams(Voice(sel), p, s), Streams(Rest(sel), p, s);
      && PlanFor(p, s).audioInputs == sv + sr
      && sv == (if UsesNarration(p, s) then StreamFor(Narration, 2, p, s) else [In(DIALOGUE_INDEX)])
      && (forall st :: st in sr ==> st.Label? && st.name != DialogueWithNarration)
  {
    PlanStreams(p, s);
    VoiceWiring(p, s);
  }

  lemma NarratedStreams(p: MixParams, s: Scene)
    requires UsesNarration(p, s)
    ensures var plan := PlanFor(p, s);
      && In(DIALOGUE_INDEX) !in plan.audioInputs
      && (KnownPlacement(p.placement) <==> Label(DialogueWithNarration) in plan.audioInputs)
  {
    var sel := Select(p, s);
    var sv, sr := Streams(Voice(sel), p, s), Streams(Rest(sel), p, s);
    VoiceThenLabels(p, s);
    VoiceAndLabels(sv, sr, KnownPlacement(p.placement));
  }

  /** The narrated voice ahead of labels other than its own. */
  lemma VoiceAndLabels(sv: seq<Stream>, sr: seq<Stream>, known: bool)
    requires sv == if known then [Label(DialogueWithNarration)] else []
    requires forall st :: st in sr ==> st.Label? && st.name != DialogueWithNarration
    ensures In(DIALOGUE_INDEX) !in sv + sr
    ensures known <==> Label(DialogueWithNarration) in sv + sr
  {
    assert Label(DialogueWithNarration) in sv + sr <==> Label(DialogueWithNarration) in sv;
  }

  lemma UnnarratedStreams(p: MixParams, s: Scene)
    requires !UsesNarration(p, s)
    ensures var plan := PlanFor(p, s);
      && plan.audioInputs != [] && plan.audioInputs[0] == In(DIALOGUE_INDEX)
      && Label(DialogueWithNarration) !in plan.audioInputs
  {
    var sel := Select(p, s);
    var sv, sr := Streams(Voice(sel), p, s), Streams(Rest(sel), p, s);
    VoiceThenLabels(p, s);
    assert sv == [In(DIALOGUE_INDEX)];
    DialogueAndLabels(sv, sr);
  }

  /** The bare dialogue ahead of labels other than the narration's. */
  lemma DialogueAndLabels(sv: seq<Stream>, sr: seq<Stream>)
    requires sv == [In(DIALOGUE_INDEX)]
    requires forall st :: st in sr ==> st.Label? && st.name != DialogueWithNarration
    ensures sv + sr != [] && (sv + sr)[0] == In(DIALOGUE_INDEX)
    ensures Label(DialogueWithNarration) !in sv + sr
  {
  }

  /** Tracks other than the voice add only labels of their own, and no voice or mix filter. */
  lemma {:induction false} LaterStreamsAreLabels(ts: seq<Track>, p: MixParams, s: Scene)
    requires Dialogue !in ts && Narration !in ts
    ensures forall st :: st in Streams(ts, p, s) ==> st.Label? && st.name != DialogueWithNarration
    decreases |ts|
  {
    if ts != [] {
      var init := ts[..|ts| - 1];
      assert forall x :: x in init ==> x in ts;
      LaterStreamsAreLabels(init, p, s);
    }
  }

  /** One step of `Streams`. */
  lemma StreamsLast(ts: seq<Track>, p: MixParams, s: Scene)
    requires ts != []
    ensures Streams(ts, p, s) == Streams(ts[..|ts| - 1], p, s) + StreamFor(ts[|ts| - 1], |ts|, p, s)
  {
  }

  /** Only the dialogue's stream names its input index. */
  lemma StreamForIndexFree(t: Track, i: nat, j: nat, p: MixParams, s: Scene)
    requires t != Dialogue
    ensures StreamFor(t, i, p, s) == StreamFor(t, j, p, s)
  {
  }

  /** The streams of `a + b`: those of `a`, then those of `b`'s tracks at the shifted indices. */
  lemma StreamsSplit(a: seq<Track>, b: seq<Track>, p: MixParams, s: Scene)
    requires Dialogue !in b
    ensures Streams(a + b, p, s) == Streams(a, p, s) + Streams(b, p, s)
    decreases |b|
  {
    if b == [] {
      assert a + b == a;
    } else {
      var bi, t := b[..|b| - 1], b[|b| - 1];
      assert (a + b)[..|a + b| - 1] == a + bi;
      assert (a + b)[|a + b| - 1] == t;
      StreamsLast(a + b, p, s);
      StreamsLast(b, p, s);
      StreamForIndexFree(t, |a + b|, |b|, p, s);
      assert Dialogue !in bi by {
        assert b == bi + [t];
      }
      StreamsSplit(a, bi, p, s);
    }
  }

  /** Adding tracks keeps every filter already there. */
  lemma PartsSplit(a: seq<Track>, b: seq<Track>, p: MixParams, s: Scene)
    ensures forall f :: f in Parts(a, p, s) ==> f in Parts(a + b, p, s)
    decreases |b|
  {
    if b != [] {
      var bi := b[..|b| - 1];
      assert (a + b)[..|a + b| - 1] == a + bi;
      assert Parts(a + b, p, s) == Parts(a + bi, p, s) + PartFor(b[|b| - 1], |a + b|, p, s);
      PartsSplit(a, bi, p, s);
    } else {
      assert a + b == a;
    }
  }

  /** Track `i` is carried by the `i`-th added input, and its filter is among the filters. */
  lemma TrackWiring(ts: seq<Track>, i: nat, f: FilterPart, p: MixParams, s: Scene)
    requires i < |ts| && f in PartFor(ts[i], i + 1, p, s)
    ensures i < |Inputs(ts, p, s)| && Inputs(ts, p, s)[i] == InputFor(ts[i], p, s)
    ensures f in Parts(ts, p, s)
  {
    InputsAt(ts, i, p, s);
    PartsContain(ts, i, p, s);
  }

  /** Track `k` is carried by input `k + 1`. */
  lemma InputInPlan(sel: Selection, p: MixParams, s: Scene, k: nat)
    requires k < |TracksOf(sel)|
    ensures k + 1 < |PlanOf(sel, p, s).inputs| && PlanOf(sel, p, s).inputs[k + 1] == InputFor(TracksOf(sel)[k], p, s)
  {
    InputsAt(TracksOf(sel), k, p, s);
  }

  /** A filter of track `k` is among the plan's filters. */
  lemma FilterInPlan(sel: Selection, p: MixParams, s: Scene, k: nat, f: FilterPart)
    requires k < |TracksOf(sel)| && f in PartFor(TracksOf(sel)[k], k + 1, p, s)
    ensures f in PlanOf(sel, p, s).filters
  {
    PartsContain(TracksOf(sel), k, p, s);
  }

  /** The stream of track `k` is among the mixed streams. */
  lemma StreamInPlan(sel: Selection, p: MixParams, s: Scene, k: nat, st: Stream)
    requires k < |TracksOf(sel)| && st in StreamFor(TracksOf(sel)[k], k + 1, p, s)
    ensures st in PlanOf(sel, p, s).audioInputs
  {
    PartsContain(TracksOf(sel), k, p, s);
  }

  /** The background track follows the voice. */
  lemma BackgroundAt(sel: Selection)
    requires Background(sel) != []
    ensures var ts, k := TracksOf(sel), |Voice(sel)|;
      k < |ts| && ts[k] == Background(sel)[0]
  {
    var v, b := Voice(sel), Background(sel);
    assert (v + b)[|v|] == b[0];
  }

  /** The impact track follows the background. */
  lemma ImpactAt(sel: Selection)
    requires Impact(sel) != []
    ensures var ts, k := TracksOf(sel), |Voice(sel)| + |Background(sel)|;
      k < |ts| && ts[k] == Impact(sel)[0]
  {
    var vb, i := Voice(sel) + Background(sel), Impact(sel);
    assert (vb + i)[|vb|] == i[0];
  }

  /** The attack sound follows the impact track. */
  lemma AttackAt(sel: Selection)
    requires sel.attack
    ensures var ts, k := TracksOf(sel), |Voice(sel)| + |Background(sel)| + |Impact(sel)|;
      k < |ts| && ts[k] == Attack
  {
    var vbi := Voice(sel) + Background(sel) + Impact(sel);
    assert (vbi + [Attack])[|vbi|] == Attack;
  }

  /** The personality cue is last. */
  lemma PersonalityAt(sel: Selection)
    requires sel.personality
    ensures var ts := TracksOf(sel);
      1 <= |ts| && ts[|ts| - 1] == Personality
  {
  }

  /**
   * The music, when its file exists, is looped to the scene and faded 0.5 s in and out (the
   * fade-out starting 0.5 s before the end), at 0.2 when ducked (asked for, or narration
   * "over") and 0.3 otherwise; its label is mixed.
   */
  lemma BgmPlan(p: MixParams, s: Scene)
    requires UsesBgm(p, s)
    ensures exists k :: (1 <= k < |PlanFor(p, s).inputs| && PlanFor(p, s).inputs[k] == Looped(p.bgmFile.value, s.sceneDuration)
      && Faded(k, if p.duckBgm || (Truthy(s.narrationPath) && p.placement == PlaceOver) then 0.2 else 0.3, 0.5, s.sceneDuration - 0.5, 0.5, BgmLabel(p, s)) in PlanFor(p, s).filters)
  {
    var sel := Select(p, s);
    var i := BgmInputOf(sel, p, s);
    var k := i + 1;
    assert PlanFor(p, s).inputs[k] == Looped(p.bgmFile.value, s.sceneDuration);
    assert Faded(k, if p.duckBgm || (Truthy(s.narrationPath) && p.placement == PlaceOver) then 0.2 else 0.3, 0.5, s.sceneDuration - 0.5, 0.5, BgmLabel(p, s)) in PlanFor(p, s).filters;
  }

  /** The label of that filter is mixed. */
  lemma BgmMixed(p: MixParams, s: Scene)
    requires UsesBgm(p, s)
    ensures Label(BgmLabel(p, s)) in PlanFor(p, s).audioInputs
  {
    BgmStreamOf(Select(p, s), p, s);
  }

  lemma BgmInputOf(sel: Selection, p: MixParams, s: Scene) returns (i: nat)
    requires sel.bgm
    ensures i < |Inputs(TracksOf(sel), p, s)| && Inputs(TracksOf(sel), p, s)[i] == InputFor(Bgm, p, s)
    ensures Faded(i + 1, BgmGain(p, s), FADE, s.sceneDuration - FADE, FADE, BgmLabel(p, s)) in Parts(TracksOf(sel), p, s)
  {
    i := BgmIndex(sel);
    TrackWiring(TracksOf(sel), i, Faded(i + 1, BgmGain(p, s), FADE, s.sceneDuration - FADE, FADE, BgmLabel(p, s)), p, s);
  }

  lemma BgmIndex(sel: Selection) returns (i: nat)
    requires sel.bgm
    ensures i < |TracksOf(sel)| && TracksOf(sel)[i] == Bgm
  {
    i := |Voice(sel)|;
    BackgroundAt(sel);
  }

  lemma BgmStreamOf(sel: Selection, p: MixParams, s: Scene)
    requires sel.bgm
    ensures Label(BgmLabel(p, s)) in PlanOf(sel, p, s).audioInputs
  {
    var i := BgmIndex(sel);
    StreamInPlan(sel, p, s, i, Label(BgmLabel(p, s)));
  }

  /**
   * Without the music, an existing ambience takes its place, faded the same way, at 0.2.
   */
  lemma AmbiencePlan(p: MixParams, s: Scene)
    requires UsesAmbience(p, s)
    ensures exists k :: (1 <= k < |PlanFor(p, s).inputs| && PlanFor(p, s).inputs[k] == Looped(p.ambienceFile.value, s.sceneDuration)
      && Faded(k, 0.2, 0.5, s.sceneDuration - 0.5, 0.5, AmbVol) in PlanFor(p, s).filters)
  {
    var sel := Select(p, s);
    var i := AmbienceInputOf(sel, p, s);
    var k := i + 1;
    assert PlanFor(p, s).inputs[k] == Looped(p.ambienceFile.value, s.sceneDuration);
    assert Faded(k, 0.2, 0.5, s.sceneDuration - 0.5, 0.5, AmbVol) in PlanFor(p, s).filters;
  }

  /** The label of that filter is mixed. */
  lemma AmbienceMixed(p: MixParams, s: Scene)
    requires UsesAmbience(p, s)
    ensures Label(AmbVol) in PlanFor(p, s).audioInputs
  {
    AmbienceStreamOf(Select(p, s), p, s);
  }

  lemma AmbienceInputOf(sel: Selection, p: MixParams, s: Scene) returns (i: nat)
    requires Exclusive(sel) && sel.ambience
    ensures i < |Inputs(TracksOf(sel), p, s)| && Inputs(TracksOf(sel), p, s)[i] == InputFor(Ambience, p, s)
    ensures Faded(i + 1, AMBIENCE_GAIN, FADE, s.sceneDuration - FADE, FADE, AmbVol) in Parts(TracksOf(sel), p, s)
  {
    i := AmbienceIndex(sel);
    TrackWiring(TracksOf(sel), i, Faded(i + 1, AMBIENCE_GAIN, FADE, s.sceneDuration - FADE, FADE, AmbVol), p, s);
  }

  lemma AmbienceIndex(sel: Selection) returns (i: nat)
    requires Exclusive(sel) && sel.ambience
    ensures i < |TracksOf(sel)| && TracksOf(sel)[i] == Ambience
  {
    i := |Voice(sel)|;
    BackgroundAt(sel);
  }

  lemma AmbienceStreamOf(sel: Selection, p: MixParams, s: Scene)
    requires Exclusive(sel) && sel.ambience
    ensures Label(AmbVol) in PlanOf(sel, p, s).audioInputs
  {
    var i := AmbienceIndex(sel);
    StreamInPlan(sel, p, s, i, Label(AmbVol));
  }

  /**
   * The SFX with its timestamp is delayed to the timestamp, at 0.8.
   */
  lemma SfxPlan(p: MixParams, s: Scene)
    requires UsesSfx(p, s)
    ensures exists k :: (1 <= k < |PlanFor(p, s).inputs| && PlanFor(p, s).inputs[k] == Delayed(p.sfxFile.value, p.sfxTimestamp.value)
      && Volume(k, 0.8, SfxVol) in PlanFor(p, s).filters)
  {
    var sel := Select(p, s);
    var i := SfxInputOf(sel, p, s);
    var k := i + 1;
    assert PlanFor(p, s).inputs[k] == Delayed(p.sfxFile.value, p.sfxTimestamp.value);
    assert Volume(k, 0.8, SfxVol) in PlanFor(p, s).filters;
  }

  /** The label of that filter is mixed. */
  lemma SfxMixed(p: MixParams, s: Scene)
    requires UsesSfx(p, s)
    ensures Label(SfxVol) in PlanFor(p, s).audioInputs
  {
    SfxStreamOf(Select(p, s), p, s);
  }

  lemma SfxInputOf(sel: Selection, p: MixParams, s: Scene) returns (i: nat)
    requires sel.sfx
    ensures i < |Inputs(TracksOf(sel), p, s)| && Inputs(TracksOf(sel), p, s)[i] == InputFor(Sfx, p, s)
    ensures Volume(i + 1, SFX_GAIN, SfxVol) in Parts(TracksOf(sel), p, s)
  {
    i := SfxIndex(sel);
    TrackWiring(TracksOf(sel), i, Volume(i + 1, SFX_GAIN, SfxVol), p, s);
  }

  lemma SfxIndex(sel: Selection) returns (i: nat)
    requires sel.sfx
    ensures i < |TracksOf(sel)| && TracksOf(sel)[i] == Sfx
  {
    i := |Voice(sel)| + |Background(sel)|;
    ImpactAt(sel);
  }

  lemma SfxStreamOf(sel: Selection, p: MixParams, s: Scene)
    requires sel.sfx
    ensures Label(SfxVol) in PlanOf(sel, p, s).audioInputs
  {
    var i := SfxIndex(sel);
    StreamInPlan(sel, p, s, i, Label(SfxVol));
  }

  /**
   * Without the SFX, an existing intro stinger plays from the start, at 0.6.
   */
  lemma IntroPlan(p: MixParams, s: Scene)
    requires UsesIntro(p, s)
    ensures exists k :: (1 <= k < |PlanFor(p, s).inputs| && PlanFor(p, s).inputs[k] == Plain(p.introStinger.value)
      && Volume(k, 0.6, StingerVol) in PlanFor(p, s).filters)
  {
    var sel := Select(p, s);
    var i := IntroInputOf(sel, p, s);
    var k := i + 1;
    assert PlanFor(p, s).inputs[k] == Plain(p.introStinger.value);
    assert Volume(k, 0.6, StingerVol) in PlanFor(p, s).filters;
  }

  /** The label of that filter is mixed. */
  lemma IntroMixed(p: MixParams, s: Scene)
    requires UsesIntro(p, s)
    ensures Label(StingerVol) in PlanFor(p, s).audioInputs
  {
    IntroStreamOf(Select(p, s), p, s);
  }

  lemma IntroInputOf(sel: Selection, p: MixParams, s: Scene) returns (i: nat)
    requires Exclusive(sel) && sel.intro
    ensures i < |Inputs(TracksOf(sel), p, s)| && Inputs(TracksOf(sel), p, s)[i] == InputFor(IntroStinger, p, s)
    ensures Volume(i + 1, STINGER_GAIN, StingerVol) in Parts(TracksOf(sel), p, s)
  {
    i := IntroIndex(sel);
    TrackWiring(TracksOf(sel), i, Volume(i + 1, STINGER_GAIN, StingerVol), p, s);
  }

  lemma IntroIndex(sel: Selection) returns (i: nat)
    requires Exclusive(sel) && sel.intro
    ensures i < |TracksOf(sel)| && TracksOf(sel)[i] == IntroStinger
  {
    i := |Voice(sel)| + |Background(sel)|;
    ImpactAt(sel);
  }

  lemma IntroStreamOf(sel: Selection, p: MixParams, s: Scene)
    requires Exclusive(sel) && sel.intro
    ensures Label(StingerVol) in PlanOf(sel, p, s).audioInputs
  {
    var i := IntroIndex(sel);
    StreamInPlan(sel, p, s, i, Label(StingerVol));
  }

  /**
   * Otherwise an existing outro stinger, at 0.6, delayed so that it ends with the scene.
   */
  lemma OutroPlan(p: MixParams, s: Scene)
    requires UsesOutro(p, s)
    ensures exists k :: (1 <= k < |PlanFor(p, s).inputs| && PlanFor(p, s).inputs[k] == Delayed(p.outroStinger.value, OutroOffset(s))
      && Volume(k, 0.6, StingerVol) in PlanFor(p, s).filters)
  {
    var sel := Select(p, s);
    var i := OutroInputOf(sel, p, s);
    var k := i + 1;
    assert PlanFor(p, s).inputs[k] == Delayed(p.outroStinger.value, OutroOffset(s));
    assert Volume(k, 0.6, StingerVol) in PlanFor(p, s).filters;
  }

  /** The label of that filter is mixed. */
  lemma OutroMixed(p: MixParams, s: Scene)
    requires UsesOutro(p, s)
    ensures Label(StingerVol) in PlanFor(p, s).audioInputs
  {
    OutroStreamOf(Select(p, s), p, s);
  }

  lemma OutroInputOf(sel: Selection, p: MixParams, s: Scene) returns (i: nat)
    requires Exclusive(sel) && sel.outro
    ensures i < |Inputs(TracksOf(sel), p, s)| && Inputs(TracksOf(sel), p, s)[i] == InputFor(OutroStinger, p, s)
    ensures Volume(i + 1, STINGER_GAIN, StingerVol) in Parts(TracksOf(sel), p, s)
  {
    i := OutroIndex(sel);
    TrackWiring(TracksOf(sel), i, Volume(i + 1, STINGER_GAIN, StingerVol), p, s);
  }

  lemma OutroIndex(sel: Selection) returns (i: nat)
    requires Exclusive(sel) && sel.outro
    ensures i < |TracksOf(sel)| && TracksOf(sel)[i] == OutroStinger
  {
    i := |Voice(sel)| + |Background(sel)|;
    ImpactAt(sel);
  }

  lemma OutroStreamOf(sel: Selection, p: MixParams, s: Scene)
    requires Exclusive(sel) && sel.outro
    ensures Label(StingerVol) in PlanOf(sel, p, s).audioInputs
  {
    var i := OutroIndex(sel);
    StreamInPlan(sel, p, s, i, Label(StingerVol));
  }

  /**
   * An existing attack sound with a timestamp is added whatever the impact choice: delayed
   * to the timestamp, at -4 dB.
   */
  lemma AttackPlan(p: MixParams, s: Scene)
    requires UsesAttack(p, s)
    ensures exists k :: (1 <= k < |PlanFor(p, s).inputs| && PlanFor(p, s).inputs[k] == Delayed(p.attackAudio.value, p.attackTimestamp.value)
      && VolumeDb(k, -4, AttackVol) in PlanFor(p, s).filters)
  {
    var sel := Select(p, s);
    var i := AttackInputOf(sel, p, s);
    var k := i + 1;
    assert PlanFor(p, s).inputs[k] == Delayed(p.attackAudio.value, p.attackTimestamp.value);
    assert VolumeDb(k, -4, AttackVol) in PlanFor(p, s).filters;
  }

  /** The label of that filter is mixed. */
  lemma AttackMixed(p: MixParams, s: Scene)
    requires UsesAttack(p, s)
    ensures Label(AttackVol) in PlanFor(p, s).audioInputs
  {
    AttackStreamOf(Select(p, s), p, s);
  }

  lemma AttackInputOf(sel: Selection, p: MixParams, s: Scene) returns (i: nat)
    requires sel.attack
    ensures i < |Inputs(TracksOf(sel), p, s)| && Inputs(TracksOf(sel), p, s)[i] == InputFor(Attack, p, s)
    ensures VolumeDb(i + 1, ATTACK_DB, AttackVol) in Parts(TracksOf(sel), p, s)
  {
    i := AttackIndex(sel);
    TrackWiring(TracksOf(sel), i, VolumeDb(i + 1, ATTACK_DB, AttackVol), p, s);
  }

  lemma AttackIndex(sel: Selection) returns (i: nat)
    requires sel.attack
    ensures i < |TracksOf(sel)| && TracksOf(sel)[i] == Attack
  {
    i := |Voice(sel)| + |Background(sel)| + |Impact(sel)|;
    AttackAt(sel);
  }

  lemma AttackStreamOf(sel: Selection, p: MixParams, s: Scene)
    requires sel.attack
    ensures Label(AttackVol) in PlanOf(sel, p, s).audioInputs
  {
    var i := AttackIndex(sel);
    StreamInPlan(sel, p, s, i, Label(AttackVol));
  }

  /**
   * A personality cue is delayed to its timestamp, at -8 dB.
   */
  lemma PersonalityPlan(p: MixParams, s: Scene)
    requires UsesPersonality(p, s)
    ensures exists k :: (1 <= k < |PlanFor(p, s).inputs| && PlanFor(p, s).inputs[k] == Delayed(p.personalityAudio.value, p.personalityTimestamp.value)
      && VolumeDb(k, -8, PersonalityVol) in PlanFor(p, s).filters)
  {
    var sel := Select(p, s);
    var i := PersonalityInputOf(sel, p, s);
    var k := i + 1;
    assert PlanFor(p, s).inputs[k] == Delayed(p.personalityAudio.value, p.personalityTimestamp.value);
    assert VolumeDb(k, -8, PersonalityVol) in PlanFor(p, s).filters;
  }

  /** The label of that filter is mixed. */
  lemma PersonalityMixed(p: MixParams, s: Scene)
    requires UsesPersonality(p, s)
    ensures Label(PersonalityVol) in PlanFor(p, s).audioInputs
  {
    PersonalityStreamOf(Select(p, s), p, s);
  }

  lemma PersonalityInputOf(sel: Selection, p: MixParams, s: Scene) returns (i: nat)
    requires sel.personality
    ensures i < |Inputs(TracksOf(sel), p, s)| && Inputs(TracksOf(sel), p, s)[i] == InputFor(Personality, p, s)
    ensures VolumeDb(i + 1, PERSONALITY_DB, PersonalityVol) in Parts(TracksOf(sel), p, s)
  {
    i := PersonalityIndex(sel);
    TrackWiring(TracksOf(sel), i, VolumeDb(i + 1, PERSONALITY_DB, PersonalityVol), p, s);
  }

  lemma PersonalityIndex(sel: Selection) returns (i: nat)
    requires sel.personality
    ensures i < |TracksOf(sel)| && TracksOf(sel)[i] == Personality
  {
    i := |TracksOf(sel)| - 1;
    PersonalityAt(sel);
  }

  lemma PersonalityStreamOf(sel: Selection, p: MixParams, s: Scene)
    requires sel.personality
    ensures Label(PersonalityVol) in PlanOf(sel, p, s).audioInputs
  {
    var i := PersonalityIndex(sel);
    StreamInPlan(sel, p, s, i, Label(PersonalityVol));
  }

  /** The compiler's decision sets no personality cue, so its mix never has one. */
  lemma NoPersonalityFromDecision(d: AudioIntelligence.AudioDecision, s: Scene)
    ensures Personality !in Tracks(ParamsOf(d), s)
    ensures forall f :: f in PlanFor(ParamsOf(d), s).filters ==> !(f.VolumeDb? && f.out == PersonalityVol)
  {
    var p := ParamsOf(d);
    TracksShape(p, s);
    PartsNoPersonality(Tracks(p, s), p, s);
  }

  lemma {:induction false} PartsNoPersonality(ts: seq<Track>, p: MixParams, s: Scene)
    requires Personality !in ts
    ensures forall f :: f in Parts(ts, p, s) ==> !(f.VolumeDb? && f.out == PersonalityVol)
    decreases |ts|
  {
    if ts != [] {
      var init := ts[..|ts| - 1];
      assert forall x :: x in init ==> x in ts;
      PartsNoPersonality(init, p, s);
    }
  }

  // ---------------------------------------------------------------------------
  // Silence, labels and the final mix
  // ---------------------------------------------------------------------------

  /** The output labels the track filters write. */
  const TRACK_LABELS: set<LabelName> := {
    DialogueWithNarration, BgmDucked, BgmVol, AmbVol,
    SfxVol, StingerVol, AttackVol, PersonalityVol}

  /** The track filters neither make silence nor mix, and every stream is an input or a track label. */
  lemma {:induction false} TrackOutputs(ts: seq<Track>, p: MixParams, s: Scene)
    ensures forall f :: f in Parts(ts, p, s) ==> !f.Silence? && !f.Amix?
    ensures forall st :: st in Streams(ts, p, s) ==> st.In? || st.name in TRACK_LABELS
    decreases |ts|
  {
    if ts != [] {
      TrackOutputs(ts[..|ts| - 1], p, s);
    }
  }

  /**
   * The silence source is a filter exactly when `silence_before > 0`, and then
   * the first one; its `[silence]` output is never mixed.
   */
  lemma SilencePlan(p: MixParams, s: Scene)
    ensures var plan := PlanFor(p, s);
      && (Silence(SAMPLE_RATE, p.silenceBefore) in plan.filters <==> p.silenceBefore > 0.0)
      && (p.silenceBefore > 0.0 ==> plan.filters[0] == Silence(SAMPLE_RATE, p.silenceBefore))
      && Label(SilenceLabel) !in plan.audioInputs
  {
    TrackOutputs(Tracks(p, s), p, s);
    assert SilenceLabel !in TRACK_LABELS;
  }

  /**
   * Several streams are mixed by a final `amix`, the last filter, and
   * `[final_audio]` is mapped; a single stream is mapped as it is, without a
   * mix; with none, the dialogue input is mapped.
   */
  lemma FinalMixPlan(p: MixParams, s: Scene)
    ensures var plan := PlanFor(p, s);
      var n := |plan.audioInputs|;
      && (n > 1 ==> plan.filters[|plan.filters| - 1] == Amix(plan.audioInputs) && plan.audioMap == Label(FinalAudio))
      && (n == 1 ==> (forall f :: f in plan.filters ==> !f.Amix?) && plan.audioMap == plan.audioInputs[0])
      && (n == 0 ==> plan.audioMap == In(DIALOGUE_INDEX))
  {
    var ts := Tracks(p, s);
    assert forall f :: f in SilenceParts(p) + Parts(ts, p, s) ==> !f.Amix? by {
      TrackOutputs(ts, p, s);
    }
  }

  /**
   * The mix has no stream at all only for narration at a placement other
   * than "before", "over" or "after" with no other track: then neither the
   * dialogue nor the narration is mixed.
   */
  lemma NoStreamsPlan(p: MixParams, s: Scene)
    ensures PlanFor(p, s).audioInputs == [] <==>
      UsesNarration(p, s) && !KnownPlacement(p.placement) && Tracks(p, s) == [Dialogue, Narration]
  {
    var sel := Select(p, s);
    var sv, sr := Streams(Voice(sel), p, s), Streams(Rest(sel), p, s);
    assert TracksOf(sel) == Voice(sel) + Rest(sel) by {
      RestShape(sel);
    }
    VoiceThenLabels(p, s);
    assert sr == [] <==> Rest(sel) == [] by {
      RestStreams(sel, p, s);
    }
    assert sv == [] <==> UsesNarration(p, s) && !KnownPlacement(p.placement);
    assert Tracks(p, s) == [Dialogue, Narration] <==> sel.narration && Rest(sel) == [] by {
      if Tracks(p, s) == [Dialogue, Narration] {
        assert |Voice(sel)| == 1 + |If(sel.narration, Narration)|;
        assert sel.narration;
        assert Voice(sel) == [Dialogue, Narration];
        assert |Rest(sel)| == 0;
      }
    }
  }

  /** A later track always adds one stream. */
  lemma RestStreams(sel: Selection, p: MixParams, s: Scene)
    ensures Rest(sel) != [] ==> Streams(Rest(sel), p, s) != []
  {
    var r := Rest(sel);
    if r != [] {
      RestShape(sel);
      assert r[|r| - 1] in r;
      LastTrackStreams(r, p, s);
    }
  }

  /** Tracks ending with a track other than the voice's have a stream. */
  lemma LastTrackStreams(ts: seq<Track>, p: MixParams, s: Scene)
    requires ts != [] && ts[|ts| - 1] != Dialogue && ts[|ts| - 1] != Narration
    ensures Streams(ts, p, s) != []
  {
    assert Streams(ts, p, s) == Streams(ts[..|ts| - 1], p, s) + StreamFor(ts[|ts| - 1], |ts|, p, s);
  }

  // ---------------------------------------------------------------------------
  // Distinct streams
  // ---------------------------------------------------------------------------

  /** The group a mixed stream belongs to: voice, background, impact, attack, personality. */
  function StreamRank(st: Stream): nat {
    match st
    case In(_) => 0
    case Label(n) =>
      if n == DialogueWithNarration then 0
      else if n == BgmDucked || n == BgmVol || n == AmbVol then 1
      else if n == SfxVol || n == StingerVol then 2
      else if n == AttackVol then 3
      else if n == PersonalityVol then 4
      else 5
  }

  predicate Ascending(xs: seq<Stream>) {
    forall i, j :: 0 <= i < j < |xs| ==> StreamRank(xs[i]) < StreamRank(xs[j])
  }

  predicate StreamRanksIn(xs: seq<Stream>, lo: nat, hi: nat) {
    forall x :: x in xs ==> lo <= StreamRank(x) < hi
  }

  /** Joining two ascending stream lists whose groups lie in consecutive ranges. */
  lemma AscendingAppend(a: seq<Stream>, b: seq<Stream>, lo: nat, mid: nat, hi: nat)
    requires lo <= mid <= hi
    requires Ascending(a) && StreamRanksIn(a, lo, mid)
    requires Ascending(b) && StreamRanksIn(b, mid, hi)
    ensures Ascending(a + b) && StreamRanksIn(a + b, lo, hi)
  {
    var r := a + b;
    forall i, j | 0 <= i < j < |r| ensures StreamRank(r[i]) < StreamRank(r[j]) {
      if i < |a| && j >= |a| {
        assert r[i] in a && r[j] in b;
      } else if i >= |a| {
        assert r[i] == b[i - |a|] && r[j] == b[j - |a|];
      }
    }
    forall x | x in r ensures lo <= StreamRank(x) < hi {
      assert x in a || x in b;
    }
  }

  /** The streams of one optional track. */
  lemma StreamsOfIf(b: bool, t: Track, p: MixParams, s: Scene)
    ensures Streams(If(b, t), p, s) == if b then StreamFor(t, 1, p, s) else []
  {
    if b {
      assert [t][..0] == [];
    }
  }

  /** A list of at most one stream, all in one group range, is ascending. */
  lemma SingleStream(xs: seq<Stream>, lo: nat, hi: nat)
    requires |xs| <= 1 && forall x :: x in xs ==> lo <= StreamRank(x) < hi
    ensures Ascending(xs) && StreamRanksIn(xs, lo, hi)
  {
  }

  /** The background group mixes the music's label, or else the ambience's. */
  lemma BackgroundStreamsOf(sel: Selection, p: MixParams, s: Scene)
    requires Exclusive(sel)
    ensures Streams(Background(sel), p, s)
      == if sel.bgm then [Label(BgmLabel(p, s))] else if sel.ambience then [Label(AmbVol)] else []
  {
    StreamsOfIf(sel.bgm, Bgm, p, s);
    StreamsOfIf(sel.ambience, Ambience, p, s);
    StreamsSplit(If(sel.bgm, Bgm), If(sel.ambience, Ambience), p, s);
  }

  /** The impact group mixes `sfx_vol`, or else `stinger_vol`. */
  lemma ImpactStreamsOf(sel: Selection, p: MixParams, s: Scene)
    requires Exclusive(sel)
    ensures Streams(Impact(sel), p, s)
      == if sel.sfx then [Label(SfxVol)] else if sel.intro || sel.outro then [Label(StingerVol)] else []
  {
    var x, i, o := If(sel.sfx, Sfx), If(sel.intro, IntroStinger), If(sel.outro, OutroStinger);
    StreamsOfIf(sel.sfx, Sfx, p, s);
    StreamsOfIf(sel.intro, IntroStinger, p, s);
    StreamsOfIf(sel.outro, OutroStinger, p, s);
    StreamsSplit(x, i, p, s);
    StreamsSplit(x + i, o, p, s);
  }

  /** The voice mixes at most one stream: the dialogue input or the narration's output. */
  lemma VoiceStreams(sel: Selection, p: MixParams, s: Scene)
    requires sel.narration == UsesNarration(p, s)
    ensures var sv := Streams(Voice(sel), p, s);
      Ascending(sv) && StreamRanksIn(sv, 0, 1)
  {
    assert Streams([Dialogue], p, s) == StreamFor(Dialogue, 1, p, s) by {
      assert [Dialogue][..0] == [];
    }
    ExtendIf([Dialogue], sel.narration, Narration, p, s);
    SingleStream(Streams(Voice(sel), p, s), 0, 1);
  }

  lemma BackgroundStreams(sel: Selection, p: MixParams, s: Scene)
    requires Exclusive(sel)
    ensures var sb := Streams(Background(sel), p, s);
      Ascending(sb) && StreamRanksIn(sb, 1, 2)
  {
    BackgroundStreamsOf(sel, p, s);
    SingleStream(Streams(Background(sel), p, s), 1, 2);
  }

  lemma ImpactStreams(sel: Selection, p: MixParams, s: Scene)
    requires Exclusive(sel)
    ensures var si := Streams(Impact(sel), p, s);
      Ascending(si) && StreamRanksIn(si, 2, 3)
  {
    ImpactStreamsOf(sel, p, s);
    SingleStream(Streams(Impact(sel), p, s), 2, 3);
  }

  lemma OptionalStreams(b: bool, t: Track, p: MixParams, s: Scene, rank: nat)
    requires StreamFor(t, 1, p, s) == [] || (|StreamFor(t, 1, p, s)| == 1 && StreamRank(StreamFor(t, 1, p, s)[0]) == rank)
    ensures Ascending(Streams(If(b, t), p, s)) && StreamRanksIn(Streams(If(b, t), p, s), rank, rank + 1)
  {
    StreamsOfIf(b, t, p, s);
  }

  /** The mixed streams, group by group. */
  lemma StreamsByGroup(sel: Selection, p: MixParams, s: Scene)
    ensures var v, bg, imp := Voice(sel), Background(sel), Impact(sel);
      var at, pe := If(sel.attack, Attack), If(sel.personality, Personality);
      Streams(TracksOf(sel), p, s)
      == Streams(v, p, s) + Streams(bg, p, s) + Streams(imp, p, s) + Streams(at, p, s) + Streams(pe, p, s)
  {
    var v, bg, imp := Voice(sel), Background(sel), Impact(sel);
    var at, pe := If(sel.attack, Attack), If(sel.personality, Personality);
    GroupMembers(sel);
    StreamsSplit(v, bg, p, s);
    StreamsSplit(v + bg, imp, p, s);
    StreamsSplit(v + bg + imp, at, p, s);
    StreamsSplit(v + bg + imp + at, pe, p, s);
  }

  /** The voice and background streams, joined, are ascending within groups 0 and 1. */
  lemma VoiceBackgroundAscending(sel: Selection, p: MixParams, s: Scene)
    requires Exclusive(sel) && sel.narration == UsesNarration(p, s)
    ensures var r := Streams(Voice(sel), p, s) + Streams(Background(sel), p, s);
      Ascending(r) && StreamRanksIn(r, 0, 2)
  {
    VoiceStreams(sel, p, s);
    BackgroundStreams(sel, p, s);
    AscendingAppend(Streams(Voice(sel), p, s), Streams(Background(sel), p, s), 0, 1, 2);
  }

  /** Adding the impact streams keeps the order, within groups 0 to 2. */
  lemma ImpactAscending(sel: Selection, p: MixParams, s: Scene)
    requires Exclusive(sel) && sel.narration == UsesNarration(p, s)
    ensures var r := Streams(Voice(sel), p, s) + Streams(Background(sel), p, s) + Streams(Impact(sel), p, s);
      Ascending(r) && StreamRanksIn(r, 0, 3)
  {
    ImpactStreams(sel, p, s);
    VoiceBackgroundAscending(sel, p, s);
    AscendingAppend(Streams(Voice(sel), p, s) + Streams(Background(sel), p, s), Streams(Impact(sel), p, s), 0, 2, 3);
  }

  /** Adding the attack stream keeps the order, within groups 0 to 3. */
  lemma AttackAscending(sel: Selection, p: MixParams, s: Scene)
    requires Exclusive(sel) && sel.narration == UsesNarration(p, s)
    ensures var r := Streams(Voice(sel), p, s) + Streams(Background(sel), p, s) + Streams(Impact(sel), p, s)
                     + Streams(If(sel.attack, Attack), p, s);
      Ascending(r) && StreamRanksIn(r, 0, 4)
  {
    OptionalStreams(sel.attack, Attack, p, s, 3);
    ImpactAscending(sel, p, s);
    AscendingAppend(Streams(Voice(sel), p, s) + Streams(Background(sel), p, s) + Streams(Impact(sel), p, s),
                    Streams(If(sel.attack, Attack), p, s), 0, 3, 4);
  }

  /** The groups' streams, joined in order, are ascending. */
  lemma GroupsAscending(sel: Selection, p: MixParams, s: Scene)
    requires Exclusive(sel) && sel.narration == UsesNarration(p, s)
    ensures Ascending(Streams(Voice(sel), p, s) + Streams(Background(sel), p, s) + Streams(Impact(sel), p, s)
                      + Streams(If(sel.attack, Attack), p, s) + Streams(If(sel.personality, Personality), p, s))
  {
    OptionalStreams(sel.personality, Personality, p, s, 4);
    AttackAscending(sel, p, s);
    AscendingAppend(Streams(Voice(sel), p, s) + Streams(Background(sel), p, s) + Streams(Impact(sel), p, s)
                    + Streams(If(sel.attack, Attack), p, s),
                    Streams(If(sel.personality, Personality), p, s), 0, 4, 5);
  }

  /** Streams of different groups differ. */
  lemma AscendingDistinct(xs: seq<Stream>)
    requires Ascending(xs)
    ensures forall i, j :: 0 <= i < j < |xs| ==> xs[i] != xs[j]
  {
    forall i, j | 0 <= i < j < |xs| ensures xs[i] != xs[j] {
      assert StreamRank(xs[i]) < StreamRank(xs[j]);
    }
  }

  /** No stream is mixed twice: in particular the two stingers never share `stinger_vol`. */
  lemma StreamsDistinct(p: MixParams, s: Scene)
    ensures var st := PlanFor(p, s).audioInputs;
      forall i, j :: 0 <= i < j < |st| ==> st[i] != st[j]
  {
    StreamsByGroup(Select(p, s), p, s);
    GroupsAscending(Select(p, s), p, s);
    AscendingDistinct(PlanFor(p, s).audioInputs);
  }

  // ---------------------------------------------------------------------------
  // The -map argument
  // ---------------------------------------------------------------------------

  /** How a stream is written in `audio_inputs`: `N:a` for an input, the bare name for a label. */
  function StreamSpec(st: Stream): string {
    match st
    case In(i) => NatToString(i) + ":a"
    case Label(l) => LabelText(l)
  }

  /** What `-map` accepts for audio: a bracketed filter output or an input stream `N:a`. */
  predicate ValidMapArg(a: string) {
    (|a| >= 2 && a[0] == '[' && a[|a| - 1] == ']') || (|a| >= 1 && '0' <= a[0] <= '9')
  }

  /** Every label starts with a lower-case letter. */
  lemma LabelTextShape(l: LabelName)
    ensures |LabelText(l)| >= 1 && 'a' <= LabelText(l)[0] <= 'z'
  {
  }

  /** The audio `-map` argument as the source computes it from `audio_inputs`. */
  function MapArgAsWritten(streams: seq<Stream>): (a: string)
    ensures !(|streams| == 1 && streams[0].Label?) ==> a == MapArg(AudioMap(streams))
    ensures |streams| == 1 && streams[0].Label? ==> a == LabelText(streams[0].name)
  {
    if |streams| > 1 then "[" + LabelText(FinalAudio) + "]"
    else if streams != [] then StreamSpec(streams[0])
    else NatToString(DIALOGUE_INDEX) + ":a"
  }

  /** The audio `-map` argument for the mapped stream, with a label in brackets. */
  function MapArg(m: Stream): (a: string)
    ensures ValidMapArg(a)
    ensures m.Label? ==> a == "[" + LabelText(m.name) + "]"
    ensures m.In? ==> a == NatToString(m.index) + ":a"
  {
    match m
    case In(i) => NatToString(i) + ":a"
    case Label(l) => "[" + LabelText(l) + "]"
  }

  /**
   * The source's argument is valid exactly when it is not a single label,
   * and it agrees with the corrected one in every other case.
   */
  lemma MapArgAsWrittenValid(streams: seq<Stream>)
    ensures ValidMapArg(MapArgAsWritten(streams)) <==> !(|streams| == 1 && streams[0].Label?)
    ensures MapArgAsWritten(streams) == MapArg(AudioMap(streams)) <==> !(|streams| == 1 && streams[0].Label?)
  {
    if |streams| == 1 && streams[0].Label? {
      var t := LabelText(streams[0].name);
      LabelTextShape(streams[0].name);
      assert MapArgAsWritten(streams) == t;
      assert |MapArg(AudioMap(streams))| == |t| + 2;
    } else if |streams| == 1 {
      assert MapArgAsWritten(streams) == MapArg(streams[0]);
    }
  }

  /**
   * A narrated scene with none of its optional assets on disk mixes only
   * `dialogue_with_narration` and maps it without brackets, which `-map`
   * does not accept.
   */
  lemma NarrationOnlyMapArg(p: MixParams, s: Scene)
    requires Truthy(s.narrationPath) && KnownPlacement(p.placement)
    requires s.existing == {}
    ensures PlanFor(p, s).audioInputs == [Label(DialogueWithNarration)]
    ensures MapArgAsWritten(PlanFor(p, s).audioInputs) == LabelText(DialogueWithNarration)
    ensures !ValidMapArg(MapArgAsWritten(PlanFor(p, s).audioInputs))
    ensures MapArg(PlanFor(p, s).audioMap) == "[" + LabelText(DialogueWithNarration) + "]"
  {
    NarrationOnlyStreams(p, s);
    var plan := PlanFor(p, s);
    assert plan.audioMap == AudioMap(plan.audioInputs);
    SingleLabelMapArg(plan.audioInputs);
  }

  lemma SingleLabelMapArg(streams: seq<Stream>)
    requires streams == [Label(DialogueWithNarration)]
    ensures MapArgAsWritten(streams) == LabelText(DialogueWithNarration)
    ensures !ValidMapArg(MapArgAsWritten(streams))
    ensures MapArg(AudioMap(streams)) == "[" + LabelText(DialogueWithNarration) + "]"
  {
    MapArgAsWrittenValid(streams);
  }

  lemma NarrationOnlyStreams(p: MixParams, s: Scene)
    requires Truthy(s.narrationPath) && KnownPlacement(p.placement)
    requires s.existing == {}
    ensures PlanFor(p, s).audioInputs == [Label(DialogueWithNarration)]
  {
    var sel := Select(p, s);
    assert Rest(sel) == [] by {
      assert sel == Selection(true, false, false, false, false, false, false, false);
    }
    VoiceThenLabels(p, s);
    assert Streams(Rest(sel), p, s) == [];
  }
}
