# Manga story teller: verified model of the scene audio and camera core

This project models, in Dafny, the deterministic core of the manga-to-video
pipeline "Manga-story-teller-automation":

- **AudioIntelligence** (`audio_intelligence.dfy`): the audio decision
  compiler `process_audio_intent`. It turns an enumerated audio intent plus
  scene facts into the parameter record the mixer reads. The record covers:
  - the silence lead-in, where silence suppresses the background;
  - existence checks, where a missing asset is logged and its slot cleared;
  - the confidence-gated SFX;
  - camera-synced SFX timestamps and speech-synced attack timestamps;
  - the layer budget;
  - narration placement;
  - the named-attack lookup (`.wav`, then `.mp3`) with its intensity-based
    generic SFX fallback.

  The method rebinds its slot variables stage by stage, as the source does. It
  is proved against `IsDecisionFor`, a slot-by-slot specification of the record.
- **Composer** (`composer.dfy`): `mix_scene_audio`, which builds the ffmpeg mix.
  - The mix is a structured plan: numbered inputs (0 is the video), one filter
    per track, the streams to mix, and the mapped stream.
  - The method grows a draft track by track, as the source extends its three
    lists. It is proved equal to `PlanFor`, a function of the parameters.
  - Lemmas about `PlanFor` state each track's input, gain, offset and label.
    Other lemmas state the track order, the exclusivity of the background and
    impact slots, the narration wiring, the final `amix` and the `-map` argument.
- **AnimationEngine** (`animation_engine.dfy`): the emotion → camera mode →
  intensity / filter template tables, `get_camera_timing`, the frame count
  `ceil(duration * FPS)`, and the argument vector of
  `generate_animation_command`.
- **SceneGrouper** (`scene_grouper.dfy`): `group_panels`.
  - Its two loops are proved against the split-on-dissimilar function `Runs`
    and the chunk-in-fours function `ChunkAll`.
  - The image-similarity oracle is a parameter.
- **PanelDetector** (`panel_detector.dfy`): the size filter on contour
  rectangles, the fallback page splits, the stable reading-order sort on
  `(y // 50, x)`, and the panel file names of `extract_and_save_panels`.
- **VoiceMemory** (`voice_memory.dfy`): `get_voice`.
  - A class holds the memo dictionary as a `map` field.
  - Voices are assigned by CRC-32 of the UTF-8 name modulo the eight-voice pool.
  - CRC-32 uses the reflected IEEE 802.3 polynomial; UTF-8 follows RFC 3629,
    section 3.
- **FrameInterpolator** (`frame_interpolator.dfy`): the `should_interpolate`
  guard, the `_48fps` output path, and the frame-numbering loop of
  `interpolate_to_48fps`. The loop interleaves original frames with generated
  ones.
- **Strings** and **Wrappers**: the Python string built-ins the core uses
  (`lower`, `upper`, `strip`, `str(int)`, `replace`) and an `Option` type.

Outside effects become parameters:
- file existence is the set `existing`;
- ffprobe durations are `real` arguments;
- the similarity oracle and the per-frame RIFE outcome are functions;
- the failure of a step is an `Option` or `bool` argument.

In these places the code does not do what its own comments say, and the model follows the code:
- A "before" narration raises `silence_before` to its read time. That can exceed
  the 2 s cap (`AudioIntelligence.ReadTimeExceedsCap`), so the lead-in is not
  bounded by `min(2, 0.3 * duration)` as the comment at
  audio/audio_intelligence.py:112 says.
- The intensity fallback for a missed attack ignores the 0.6 confidence gate
  that the comment at audio/audio_intelligence.py:140 announces for SFX.
  It keeps the fallback SFX path even when that file is missing (with no
  timestamp and no entry in `missing_assets`). It also adds a layer, so the
  count can reach 4 without any attack audio.
- The silence lead-in that the comment at video/composer.py:89 says is added
  before the scene is only generated: its `[silence]` output is never mixed
  (`Composer.SilencePlan`).
- `interpolate_to_48fps` adds one generated frame per two originals, so `n`
  frames become `n + n / 2`, not the 1.6 times the comment at
  utils/frame_interpolator.py:142 mentions (`FrameInterpolator.AllWrittenCount`).

## Model

| member | source | states |
|---|---|---|
| AudioIntelligence.SfxTimestamp | audio/audio_intelligence.py:336-354 | the SFX fires at half the camera duration for "zoom_in" and at 0 for every other action |
| AudioIntelligence.AttackTiming | audio/audio_intelligence.py:316-334 | the attack fires at 0 for shake, zoom_in_fast and shake_agressive, otherwise at half the dialogue |
| AudioIntelligence.TimestampsWithinClip | audio/audio_intelligence.py:331-354 | both timestamps lie inside the clip they are synced to |
| AudioIntelligence.DecisionUnique | audio/audio_intelligence.py:71-293 | the record specification `IsDecisionFor` fixes every field: two records meeting it for the same inputs are equal |
| AudioIntelligence.WordCount | audio/audio_intelligence.py:67 | `len(text.split())` is 0 exactly for blank text and never exceeds the number of characters |
| AudioIntelligence.WordCountJoin | audio/audio_intelligence.py:67 | two texts joined by a space have as many words as the two together |
| AudioIntelligence.NarrationDuration | audio/audio_intelligence.py:51-69 | the estimate is 0.48 s per word (2.5 words/s plus 20%), non-negative, and zero exactly for blank text |
| AudioIntelligence.AttackCandidates | audio/audio_intelligence.py:307-308 | the candidate paths are the `.wav` one, then the `.mp3` one |
| AudioIntelligence.FirstExistingSpec | audio/audio_intelligence.py:307-314 | the lookup gives None exactly when no candidate exists, else the first existing candidate |
| AudioIntelligence.ResolveAttackAudio | audio/audio_intelligence.py:295-314 | the loop returns the first existing of `.wav`, `.mp3`, and None exactly when neither exists |
| AudioIntelligence.Checked | audio/audio_intelligence.py:129-138 | a slot survives validation exactly when it was requested and its file exists, and is then unchanged |
| AudioIntelligence.MissingOf | audio/audio_intelligence.py:129-138 | a slot logs its path exactly when it was requested and its file is missing |
| AudioIntelligence.FallbackSfxKnown | audio/audio_intelligence.py:261-263 | low → punch, high → explosion, anything else → hit, always a known table entry |
| AudioIntelligence.FallbackSfxPath | audio/audio_intelligence.py:261-263 | the fallback path is the table entry of the intensity's sound |
| AudioIntelligence.ValidateAsset | audio/audio_intelligence.py:130-133 | one existence check keeps the slot or clears it and appends its path to the log |
| AudioIntelligence.BackgroundStage | audio/audio_intelligence.py:117-138 | silence clears bgm and ambience; otherwise each is looked up and existence-checked, bgm logged before ambience |
| AudioIntelligence.SfxStage | audio/audio_intelligence.py:140-155 | the SFX is looked up only at confidence ≥ 0.6, kept only if its file exists, and only then timed to the camera |
| AudioIntelligence.StingerStage | audio/audio_intelligence.py:157-169 | requested stingers are existence-checked, intro logged before outro |
| AudioIntelligence.NarrationStage | audio/audio_intelligence.py:171-188 | no text gives "none" and 0.0; otherwise the intent's placement and 0.3; "before" raises, never lowers, the lead-in to the read time |
| AudioIntelligence.LayerStage | audio/audio_intelligence.py:193-221 | bgm clears ambience; the count is 1 + one background + one impact, at most 3, so the trim never fires and the stingers are kept |
| AudioIntelligence.AssetStages | audio/audio_intelligence.py:110-221 | the background, SFX and stinger slots, the full missing-asset log and the layer count before the attack stage |
| AudioIntelligence.AttackStage | audio/audio_intelligence.py:231-271 | the attack hit and its timestamp; on a miss either the generic-SFX flag or the intensity fallback (which ignores confidence and may keep a missing path untimed); the added layer; the fallback flag as an if-and-only-if |
| AudioIntelligence.ProcessAudioIntent | audio/audio_intelligence.py:71-293 | the returned record satisfies the slot-by-slot decision specification |
| AudioIntelligence.MissingLogExact | audio/audio_intelligence.py:110-169 | the log lists only missing files, lists every requested missing asset, has at most 5 entries, and at most 3 under silence |
| AudioIntelligence.DecisionProperties | audio/audio_intelligence.py:112-271 | silence empties the background; bgm and ambience never both survive; an SFX timestamp goes with an existing SFX; low confidence silences the SFX outside the fallback; attack audio exists; logged paths are missing; 1 ≤ layers ≤ 4 |
| AudioIntelligence.SilenceLeadInBounds | audio/audio_intelligence.py:112-115 | the lead-in is 30% of the scene capped at 2 s (10 s gives 2.0, 4 s gives 1.2) |
| AudioIntelligence.ReadTimeExceedsCap | audio/audio_intelligence.py:185-188 | narration longer than 25 characters read "before" exceeds the 2 s silence cap |
| AudioIntelligence.AssetTablesDisjoint | audio/audio_intelligence.py:19-41 | no path is shared between the bgm, ambience and SFX tables |
| Composer.Select | video/composer.py:132-195 | at most one background and one impact track; a background/impact track is chosen exactly when one of its candidates is present |
| Composer.OutroOffset | video/composer.py:189 | the outro offset is `max(0, scene - stinger)` |
| Composer.MixSceneAudio | video/composer.py:32-250 | the built inputs, filters, mixed streams and mapped stream equal the plan of the selected tracks; the corrected `-map` argument is well formed, and the source's argument, returned beside it, equals it except when a single label is mixed |
| Composer.PlanShape | video/composer.py:84-224 | `PlanFor`: the video is input 0, followed by one input per selected track, and several mixed streams end the filters with their `amix` |
| Composer.TracksShape | video/composer.py:84-99 | the dialogue is the first source and the narration, when used, the second; each track at most once, in fixed order; at most one background and one impact; at most six sources |
| Composer.SelectionMembers | video/composer.py:96-217 | a mix includes a track exactly when its guard holds |
| Composer.DialogueInput | video/composer.py:97-99 | the dialogue is input 1 |
| Composer.NarrationInput | video/composer.py:102-105 | a used narration is input 2 |
| Composer.NarrationFilters | video/composer.py:107-126 | "before" concatenates narration then dialogue, "over" mixes narration at 1.0 over dialogue at 0.6, "after" concatenates dialogue then narration |
| Composer.NarrationStreams | video/composer.py:102-129 | with narration the dialogue reaches the mix only through `dialogue_with_narration` (not at all for an unknown placement); without it the dialogue input is the first mixed stream |
| Composer.BgmPlan | video/composer.py:132-150 | existing bgm is a looped input trimmed to the scene, faded 0.5 s in and out from `scene - 0.5`, at 0.2 when ducked or under "over" narration, else 0.3 |
| Composer.BgmMixed | video/composer.py:144-150 | the bgm label is mixed |
| Composer.AmbiencePlan | video/composer.py:153-160 | ambience, only without bgm, is looped, trimmed and faded at gain 0.2 |
| Composer.AmbienceMixed | video/composer.py:160 | the ambience label is mixed |
| Composer.SfxPlan | video/composer.py:163-168 | an existing, timed SFX is delayed by its timestamp at gain 0.8 |
| Composer.SfxMixed | video/composer.py:168 | the SFX label is mixed |
| Composer.IntroPlan | video/composer.py:171-176 | the intro stinger, only without the SFX, plays from the start at 0.6 |
| Composer.IntroMixed | video/composer.py:176 | the stinger label is mixed |
| Composer.OutroPlan | video/composer.py:179-195 | the outro stinger, only without SFX or intro, is delayed to end with the scene at 0.6 |
| Composer.OutroMixed | video/composer.py:195 | the stinger label is mixed |
| Composer.AttackPlan | video/composer.py:202-208 | existing, timed attack audio is delayed by its timestamp at -4 dB, whatever the impact choice |
| Composer.AttackMixed | video/composer.py:207 | the attack label is mixed |
| Composer.PersonalityPlan | video/composer.py:211-217 | an existing, timed personality cue is delayed by its timestamp at -8 dB |
| Composer.PersonalityMixed | video/composer.py:216 | the personality label is mixed |
| Composer.NoPersonalityFromDecision | video/composer.py:68 | the compiler's record sets no personality cue, so its mix has none |
| Composer.StreamsDistinct | video/composer.py:86-217 | no stream is mixed twice (the two stingers never both add `stinger_vol`) |
| Composer.SilencePlan | video/composer.py:90-94 | the silence source is a filter exactly when `silence_before > 0`, then the first one, and its label is never mixed |
| Composer.FinalMixPlan | video/composer.py:220-227 | several streams get a final `amix` (the last filter) and `[final_audio]` is mapped; one stream is mapped directly with no mix; none maps the dialogue input |
| Composer.NoStreamsPlan | video/composer.py:102-227 | nothing is mixed exactly when narration with an unknown placement is the only track besides the dialogue |
| Composer.MapArg | video/composer.py:225-227 | the corrected argument: labels are mapped in brackets and inputs as `N:a`, always a valid `-map` argument |
| Composer.MapArgAsWrittenValid | video/composer.py:225-227 | the source's argument is valid, and equal to the corrected one, exactly when it is not a single label |
| Composer.MapArgAsWritten | video/composer.py:224-227 | the argument as written agrees with the corrected one except for a single label, which it writes without brackets |
| Composer.NarrationOnlyMapArg | video/composer.py:102-129 | a narrated scene with no asset present maps the bare `dialogue_with_narration`, which `-map` rejects |
| AnimationEngine.CameraMode | video/animation_engine.py:9-18 | the upper-cased emotion is looked up and an unknown one gives STATIC |
| AnimationEngine.ModeTablesTotal | video/animation_engine.py:25-66 | every camera mode has an intensity and a filter template |
| AnimationEngine.Intensity | video/animation_engine.py:98-112 | "high" exactly for the shakes and the fast zoom, "medium" exactly for the zooms, "low" exactly for static and pans |
| AnimationEngine.Action | video/animation_engine.py:110 | the action is the mode's name lower-cased |
| AnimationEngine.GetCameraTiming | video/animation_engine.py:80-113 | the record is the lower-cased mode, the duration unchanged, and the mode's intensity |
| AnimationEngine.EveryModeHasTemplate | video/animation_engine.py:9-66 | every mode in the emotion table has a template and an intensity |
| AnimationEngine.UnknownEmotionIsStatic | video/animation_engine.py:95 | an unknown emotion is filmed like a calm one: static, low |
| AnimationEngine.HighIntensityIsSudden | video/animation_engine.py:104-113 | the attack fires at the start exactly for the high-intensity camera actions |
| AnimationEngine.Ceil | video/animation_engine.py:127 | `n - 1 < x <= n` |
| AnimationEngine.FrameCount | video/animation_engine.py:127 | `frames - 1 < duration * FPS <= frames`, at least 1 for a positive duration |
| AnimationEngine.RenderAppend | video/animation_engine.py:133-138 | formatting distributes over template concatenation |
| AnimationEngine.FilterOfMode | video/animation_engine.py:130 | the STATIC fallback never applies: each mode uses its own template |
| AnimationEngine.FilterEndsWithFps | video/animation_engine.py:25-66 | every rendered filter ends with `,fps=<FPS>` |
| AnimationEngine.CommandOf | video/animation_engine.py:140-153 | 24 arguments: the inputs, `-t`, `-vf`, `-r FPS`, the output last |
| AnimationEngine.GenerateAnimationCommand | video/animation_engine.py:115-155 | the command starts `ffmpeg -y -loop 1 -i <image> -i <audio>`, filters with the emotion's template at `ceil(duration*FPS)` frames, forces `-r FPS`, ends with the output |
| SceneGrouper.Runs | processing/scene_grouper.py:18-28 | the runs are non-empty, flatten to the input, are linked by similarity, and meet at dissimilar pairs |
| SceneGrouper.RunsStep | processing/scene_grouper.py:25-28 | a panel joins the last run exactly when it is similar to the one before it, and otherwise starts a new run |
| SceneGrouper.Chunk | processing/scene_grouper.py:33-37 | a run becomes ceil(n/4) pieces |
| SceneGrouper.ChunkProperties | processing/scene_grouper.py:33-37 | the pieces flatten to the run; each holds 1 to 4 panels, all but the last exactly 4 |
| SceneGrouper.ChunkLinked | processing/scene_grouper.py:33-37 | pieces of a linked run are linked |
| SceneGrouper.GroupPanels | processing/scene_grouper.py:10-39 | the two loops compute the chunked runs |
| SceneGrouper.CapSceneSize | processing/scene_grouper.py:31-37 | the while loop cuts every scene into pieces of four |
| SceneGrouper.ChunkAllFlatten | processing/scene_grouper.py:31-37 | cutting keeps every panel in order |
| SceneGrouper.ChunkAllSizes | processing/scene_grouper.py:33-37 | every piece holds 1 to 4 panels |
| SceneGrouper.ChunkAllSimilar | processing/scene_grouper.py:31-37 | cutting never joins dissimilar neighbours |
| SceneGrouper.GroupKeepsPanels | processing/scene_grouper.py:15-39 | the scenes flatten to the input, and an empty input gives no scenes |
| SceneGrouper.GroupScenes | processing/scene_grouper.py:18-39 | every scene has 1 to 4 panels and never spans a dissimilar pair |
| SceneGrouper.ChunkCount | processing/scene_grouper.py:33-37 | a run of n becomes ceil(n/4) scenes, all but the last of exactly 4 |
| PanelDetector.Kept | processing/panel_detector.py:36-46 | a rectangle is kept exactly when it covers more than 5% and less than 95% of the page |
| PanelDetector.FilterRects | processing/panel_detector.py:36-46 | the loop keeps exactly the accepted rectangles, in contour order |
| PanelDetector.KeptAppend | processing/panel_detector.py:36-46 | filtering a concatenation filters each part and concatenates the results |
| PanelDetector.Fallbacks | processing/panel_detector.py:59-69 | a wide page splits into left/right halves, a tall one into top/bottom halves, else one full-page box |
| PanelDetector.FallbacksTile | processing/panel_detector.py:59-69 | one or two non-empty boxes, inside the page, not overlapping |
| PanelDetector.SortPanels | processing/panel_detector.py:52-55 | the sort is a permutation in `(y // 50, x)` order |
| PanelDetector.SortPanelsStable | processing/panel_detector.py:52-55 | boxes with equal keys keep their contour order |
| PanelDetector.SortPanelsOrdered | processing/panel_detector.py:52-55 | the result is ordered pairwise, not only between neighbours |
| PanelDetector.JoinPathShape | processing/panel_detector.py:79 | `os.path.join` ends with the name, is the name alone when it is absolute, and otherwise starts with the directory |
| PanelDetector.PanelFileNameShape | processing/panel_detector.py:79 | the file name is the prefix, `_panel_`, the decimal index and `.png`, in that order |
| PanelDetector.Candidates | processing/panel_detector.py:36-50 | at least one box, each accepted or a fallback |
| PanelDetector.DetectPanels | processing/panel_detector.py:12-57 | an unreadable page gives no boxes; a readable one gives the sorted candidates |
| PanelDetector.DetectedPanels | processing/panel_detector.py:36-57 | a readable page yields a non-empty, sorted permutation of accepted or fallback boxes |
| PanelDetector.PanelPathsDistinct | processing/panel_detector.py:79 | different indices give different joined paths |
| PanelDetector.PanelPathsNumbered | processing/panel_detector.py:77-81 | path `i` is panel `i`'s, and no path repeats |
| PanelDetector.ExtractAndSavePanels | processing/panel_detector.py:71-83 | one path per detected box, named `{prefix}_panel_{i}.png`, in box order |
| Strings.NormalizeIdempotent | audio/voice_memory.py:41 | normalising a normalised name changes nothing |
| Strings.Normalize | audio/voice_memory.py:41 | the key is lower-case, has no white space at either end, and is no longer than the name |
| Strings.StripIdempotent | audio/voice_memory.py:41 | stripping twice is stripping once |
| Strings.NatToStringInjective | processing/panel_detector.py:79 | distinct indices render distinctly |
| VoiceMemory.Crc32KnownValues | audio/voice_memory.py:46 | the CRC agrees with zlib on the empty input (0) and on "a" (0xE8B7BE43) |
| VoiceMemory.Crc32Resume | audio/voice_memory.py:46 | the CRC of a concatenation resumes from the CRC of its first part |
| VoiceMemory.Utf8 | audio/voice_memory.py:46 | each character takes one to four bytes, and ASCII text one byte per character |
| VoiceMemory.AssignedVoice | audio/voice_memory.py:46-48 | a new name gets a pool voice |
| VoiceMemory.VoiceFor | audio/voice_memory.py:36-52 | a known key returns its voice and changes nothing; a new key is assigned its CRC voice and only that key is added |
| VoiceMemory.GetVoiceIdempotent | audio/voice_memory.py:41-50 | asking again with any spelling of the same key returns the same voice and changes nothing |
| VoiceMemory.NormalizedNameHits | audio/voice_memory.py:41-43 | the normalised name finds the entry the first call stored |
| VoiceMemory.VoiceForKeepsPool | audio/voice_memory.py:8-17 | a memory of pool voices stays one, and every voice returned is from the pool |
| VoiceMemory.SameKeySameVoice | audio/voice_memory.py:41-48 | two names that normalise alike get the same voice |
| VoiceMemory.VoiceMemory.constructor | audio/voice_memory.py:20-30 | the memo starts as the stored dictionary, or empty when no file exists |
| VoiceMemory.VoiceMemory.GetVoice | audio/voice_memory.py:36-52 | the method updates the memo exactly as `VoiceFor` and keeps it pool-only |
| FrameInterpolator.InterpolatedModes | utils/frame_interpolator.py:47-74 | fed the camera record, the guard holds exactly for scenes of at least 1.2 s that are not static, an aggressive shake or a fast zoom |
| FrameInterpolator.ShouldInterpolate | utils/frame_interpolator.py:47-74 | scenes shorter than 1.2 s and every action outside `zoom_in`, `zoom_out`, `shake`, `pan_left`, `pan_right` (static, aggressive shake, fast zoom among them) are never interpolated; those five actions at 1.2 s or more always are |
| FrameInterpolator.OutputPathOfMp4 | utils/frame_interpolator.py:100 | `stem.mp4` becomes `stem_48fps.mp4` |
| FrameInterpolator.OutputPath | utils/frame_interpolator.py:100 | a path without ".mp4" is unchanged |
| FrameInterpolator.WrittenOriginals | utils/frame_interpolator.py:131-150 | every original frame of the pairs is written once, in order |
| FrameInterpolator.WrittenCount | utils/frame_interpolator.py:131-150 | one generated frame per succeeding even pair, so between p and p + ceil(p/2) frames |
| FrameInterpolator.AllWrittenOriginals | utils/frame_interpolator.py:131-153 | every extracted frame is written once, in order |
| FrameInterpolator.AllWrittenCount | utils/frame_interpolator.py:131-153 | with every generation succeeding, n frames become n + floor(n/2) |
| FrameInterpolator.WrittenIntermediates | utils/frame_interpolator.py:131-150 | a generated frame follows the first original of each even pair whose generation succeeds, and occurs nowhere else |
| FrameInterpolator.AllWrittenIntermediates | utils/frame_interpolator.py:131-153 | the same placement holds for the full numbered output |
| FrameInterpolator.InterpolateTo48fps | utils/frame_interpolator.py:76-176 | the guard, a failed extraction or fewer than 2 frames return the input path with no files; otherwise the files are numbered 0.. without gaps, and the path is the `_48fps` one exactly when the encode succeeds |

## Left out

- Printing, logging, `subprocess` calls, ffprobe, OpenCV contouring and
  histograms, image reads and writes, the RIFE model and `shutil.rmtree` have
  no counterpart. Their outcomes are parameters (existing files, durations,
  the contour rectangles, the similarity oracle, per-frame RIFE success,
  extraction and encode success).
- The ffmpeg strings of `mix_scene_audio` (the `-filter_complex` text, the
  option lists and Python's rendering of floats inside them) are not built.
  The plan holds the inputs, delays, gains, labels and mixed streams as data.
  The fixed options are not in the plan: `duration=longest` of both `amix`
  filters, `dropout_transition=0,volume=1.0` of the final one, and the output
  options `-map 0:v -c:v copy -c:a aac -b:a 192k`. Only the audio `-map`
  argument is rendered as text, because its form is what the finding below is
  about.
- Composer.MixSceneAudio: `mapArg` is the corrected `-map` argument. The
  source's own argument is `writtenMapArg`, equal to
  `MapArgAsWritten(plan.audioInputs)`. The two differ exactly when a single
  label is mixed (`Composer.MapArgAsWrittenValid`).
- Durations and gains are exact `real`s; binary floating point and its
  rounding are not modelled.
- AnimationEngine.GenerateAnimationCommand: `f"{duration:.3f}"` is the
  parameter `durationText`, because three-decimal float formatting is not
  modelled.
- `get_audio_duration` (and its 5.0 s fallback) is not modelled: the duration is
  a parameter.
- `lower`, `upper`, `strip` and `split` cover ASCII only; Python's full
  Unicode case mapping and white-space set are not modelled.
- The `dialogue_intent` argument of `process_audio_intent` is unused by the
  code and is not modelled. A missing dict key is modelled by its default value.
- `layer_count` and `narration_duck_amount` are only printed by the mixer, so
  `MixParams` omits them.
- The mixer's personality cue is never set by the compiler, so in the mixer it
  is a free parameter (`ParamsOf` sets it to None).
- A `narration_placement` other than before/over/after/none is modelled as
  written. The narration input is added with no filter, and the dialogue is
  not mixed (`Composer.NoStreamsPlan`).
- Composer.BgmPlan: states that some input `k` carries the music and that
  the filter for input `k` is present, without naming `k`. The exact
  positions follow from `Composer.TracksShape` and the track order.
- Composer.AmbiencePlan: the input index is stated existentially, as for
  `Composer.BgmPlan`.
- Composer.SfxPlan: the input index is stated existentially, as for `Composer.BgmPlan`.
- Composer.IntroPlan: the input index is stated existentially, as for `Composer.BgmPlan`.
- Composer.OutroPlan: the input index is stated existentially, as for `Composer.BgmPlan`.
- Composer.AttackPlan: the input index is stated existentially, as for `Composer.BgmPlan`.
- Composer.PersonalityPlan: the input index is stated existentially, as for `Composer.BgmPlan`.
- `concatenate_clips`, `finalize_video`, `get_stats` and the lazy `rife`
  property are not modelled; they are ffmpeg or model-loading wrappers.
- `list.sort` is modelled by a stable insertion sort. The model specifies what
  Python's sort guarantees (a stable permutation in key order), not Timsort
  itself. The in-place sort becomes a function on the list value.
- PanelDetector.DetectPanels: requires a decoded page to have positive height
  and width, because a zero-area page would divide by zero in the source and
  cannot be decoded.
- `os.path.join` is modelled for POSIX separators only.
- The frame and interpolation directory names, and the removal of both
  directories after a successful encode, are not modelled. `Outcome.files`
  are the numbered files written before that cleanup.
- Only extraction failures and encode failures are modelled as exceptions of
  `interpolate_to_48fps`. A failing `makedirs`, `imread` or `imwrite` is not.
- The JSON file of the voice memory is not modelled. The constructor takes its
  parsed content, and `_save_memory` is not modelled.
- CRC-32 is the bitwise reflected algorithm. It is checked against two known
  values, not proved equal to zlib's table-driven code.

## Findings

| source | as written | input that shows it | evidently intended | confidence | as-written member | corrected member |
|---|---|---|---|---|---|---|
| video/composer.py:226-227 | a single mixed stream is passed to `-map` as written in `audio_inputs`, so a filter label has no brackets | a narrated scene ("before", "over" or "after") with no bgm, ambience, SFX, stinger, attack or personality file present: `-map dialogue_with_narration` | a filter output is mapped as `[dialogue_with_narration]` | not executed | Composer.MapArgAsWritten, Composer.NarrationOnlyMapArg | Composer.MapArg, Composer.MixSceneAudio |
