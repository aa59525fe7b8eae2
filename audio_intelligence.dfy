/**
 * The per-scene audio decision compiler. It turns an enumerated audio intent
 * plus scene facts (durations, camera motion, narration text, confidence) into
 * the parameter record the mixer consumes. Asset existence is the set
 * `existing` of paths present on disk; no other state is consulted.
 */
module AudioIntelligence {
  import opened Wrappers
  import opened Strings

  // ---------------------------------------------------------------------------
  // Asset tables (enum value -> path, or None)
  // ---------------------------------------------------------------------------

  const BGM_MAP: map<string, Option<string>> := map[
    "calm" := Some("assets/bgm/calm_loop.wav"),
    "tense" := Some("assets/bgm/tense_loop.wav"),
    "heroic" := Some("assets/bgm/heroic_loop.wav"),
    "sad" := Some("assets/bgm/sad_loop.wav"),
    "none" := None]

  const SFX_MAP: map<string, Option<string>> := map[
    "punch" := Some("assets/sfx/punch.wav"),
    "slash" := Some("assets/sfx/slash.wav"),
    "explosion" := Some("assets/sfx/explosion.wav"),
    "hit" := Some("assets/sfx/hit.wav"),
    "none" := None]

  const AMBIENCE_MAP: map<string, Option<string>> := map[
    "wind" := Some("assets/ambience/wind.wav"),
    "sea" := Some("assets/ambience/sea.wav"),
    "crowd" := Some("assets/ambience/crowd.wav"),
    "room" := Some("assets/ambience/room.wav"),
    "none" := None]

  const STINGER_MAP: map<string, string> := map[
    "intro" := "assets/stingers/intro.wav",
    "outro" := "assets/stingers/outro.wav"]

  /** `table.get(key)`: a key the table does not know gives None. */
  function Lookup(table: map<string, Option<string>>, key: string): Option<string> {
    if key in table then table[key] else None
  }

  // ---------------------------------------------------------------------------
  // Inputs and result
  // ---------------------------------------------------------------------------

  /**
   * The enumerated intent. A key missing from the source's dict is modelled by
   * its default: "none" for bgm, ambience and impact_sfx, false for the three
   * flags, "over" for narration_placement.
   */
  datatype AudioIntent = AudioIntent(
    bgm: string,
    ambience: string,
    impactSfx: string,
    useSilence: bool,
    introStinger: bool,
    outroStinger: bool,
    narrationPlacement: string)

  /** The camera record; a missing "action" is "static", a missing "duration" is None. */
  datatype CameraTiming = CameraTiming(action: string, duration: Option<real>)

  /** The attack record; missing fields are "", "" and "medium". */
  datatype AttackIntent = AttackIntent(character: string, name: string, intensity: string)

  /** The parameter dict returned by the compiler, one field per key. */
  datatype AudioDecision = AudioDecision(
    bgmFile: Option<string>,
    ambienceFile: Option<string>,
    sfxFile: Option<string>,
    sfxTimestamp: Option<real>,
    introStinger: Option<string>,
    outroStinger: Option<string>,
    silenceBefore: real,
    duckBgm: bool,
    layerCount: int,
    narrationPlacement: string,
    narrationDuckAmount: real,
    attackAudio: Option<string>,
    attackTimestamp: Option<real>,
    missingAssets: seq<string>,
    characterAudioFallback: bool)

  // ---------------------------------------------------------------------------
  // Timing rules
  // ---------------------------------------------------------------------------

  /** `_calculate_sfx_timestamp`: the SFX is synced to the camera motion. */
  function SfxTimestamp(cameraAction: string, cameraDuration: real): (t: real)
    ensures cameraAction == "zoom_in" ==> t == 0.5 * cameraDuration
    ensures cameraAction != "zoom_in" ==> t == 0.0
  {
    if cameraAction == "shake" then 0.0
    else if cameraAction == "zoom_in" then cameraDuration * 0.5
    else if cameraAction in ["zoom_out", "pan_left", "pan_right"] then 0.0
    else 0.0
  }

  /** The actions for which an attack sound fires at the very start. */
  predicate IsSuddenAction(cameraAction: string) {
    cameraAction in ["shake", "zoom_in_fast", "shake_agressive"]
  }

  /** `calculate_attack_timing`: the attack is synced to speech cadence. */
  function AttackTiming(cameraAction: string, dialogueDuration: real): (t: real)
    ensures IsSuddenAction(cameraAction) ==> t == 0.0
    ensures !IsSuddenAction(cameraAction) ==> t == dialogueDuration / 2.0
  {
    if IsSuddenAction(cameraAction) then 0.0 else dialogueDuration / 2.0
  }

  /** Both timestamps fall inside the clip they are synced to. */
  lemma TimestampsWithinClip(cameraAction: string, cameraDuration: real, dialogueDuration: real)
    requires cameraDuration >= 0.0 && dialogueDuration >= 0.0
    ensures 0.0 <= SfxTimestamp(cameraAction, cameraDuration) <= cameraDuration
    ensures 0.0 <= AttackTiming(cameraAction, dialogueDuration) <= dialogueDuration
  {
  }

  // ---------------------------------------------------------------------------
  // calculate_narration_duration (word-count estimate)
  // ---------------------------------------------------------------------------

  /** Drops the leading run of non-white-space characters. */
  function DropWord(s: string): (r: string)
    ensures |r| <= |s| && r == s[|s| - |r|..]
    ensures s != [] && !IsSpace(s[0]) ==> |r| < |s|
  {
    if s != [] && !IsSpace(s[0]) then DropWord(s[1..]) else s
  }

  /** `len(s.split())`: the number of maximal runs of non-white-space, at most one per character. */
  function WordCount(s: string): (n: nat)
    ensures n == 0 <==> IsBlank(s)
    ensures n <= |s|
    decreases |s|
  {
    var t := StripLeft(s);
    if t == [] then 0
    else
      assert s[|s| - |t|] == t[0];
      1 + WordCount(DropWord(t))
  }

  predicate IsBlank(s: string) {
    forall i :: 0 <= i < |s| ==> IsSpace(s[i])
  }

  /** The white space of a blank prefix is skipped together with the rest's. */
  lemma {:induction false} StripLeftBlankPrefix(s: string, w: string)
    requires IsBlank(s)
    ensures StripLeft(s + w) == StripLeft(w)
    decreases |s|
  {
    if s != [] {
      assert (s + w)[0] == s[0] && (s + w)[1..] == s[1..] + w;
      StripLeftBlankPrefix(s[1..], w);
    } else {
      assert s + w == w;
    }
  }

  /** Behind a prefix that holds a word, everything after its leading white space is kept. */
  lemma {:induction false} StripLeftWordPrefix(s: string, w: string)
    requires !IsBlank(s)
    ensures StripLeft(s + w) == StripLeft(s) + w
    decreases |s|
  {
    assert (s + w)[0] == s[0];
    if IsSpace(s[0]) {
      assert (s + w)[1..] == s[1..] + w;
      StripLeftWordPrefix(s[1..], w);
    }
  }

  /** A word ends at the white space that follows it. */
  lemma {:induction false} DropWordBeforeSpace(u: string, w: string)
    requires w != [] && IsSpace(w[0])
    ensures DropWord(u + w) == DropWord(u) + w
    decreases |u|
  {
    if u == [] {
      assert u + w == w;
    } else {
      assert (u + w)[0] == u[0];
      if !IsSpace(u[0]) {
        assert (u + w)[1..] == u[1..] + w;
        DropWordBeforeSpace(u[1..], w);
      }
    }
  }

  /** A leading white-space character is stripped. */
  lemma StripLeftSpace(w: string)
    requires w != [] && IsSpace(w[0])
    ensures StripLeft(w) == StripLeft(w[1..])
  {
  }

  /** Texts that agree after their leading white space have the same word count. */
  lemma SameAfterStrip(x: string, y: string)
    requires StripLeft(x) == StripLeft(y)
    ensures WordCount(x) == WordCount(y)
  {
  }

  /** A text holding a word counts it, then the words after it. */
  lemma WordCountFirst(x: string)
    requires StripLeft(x) != []
    ensures WordCount(x) == 1 + WordCount(DropWord(StripLeft(x)))
  {
  }

  /** A text followed by one that starts with white space: the word counts add. */
  lemma {:induction false} WordCountBeforeSpace(s: string, w: string)
    requires w != [] && IsSpace(w[0])
    ensures WordCount(s + w) == WordCount(s) + WordCount(w)
    decreases |s|
  {
    if IsBlank(s) {
      StripLeftBlankPrefix(s, w);
      SameAfterStrip(s + w, w);
    } else {
      var u := StripLeft(s);
      StripLeftWordPrefix(s, w);
      DropWordBeforeSpace(u, w);
      WordCountFirst(s);
      WordCountFirst(s + w);
      WordCountBeforeSpace(DropWord(u), w);
    }
  }

  /** Joining two texts with a white-space character adds their word counts. */
  lemma WordCountJoinAt(s: string, c: char, t: string)
    requires IsSpace(c)
    ensures WordCount(s + ([c] + t)) == WordCount(s) + WordCount(t)
  {
    var w := [c] + t;
    assert w[0] == c && w[1..] == t;
    StripLeftSpace(w);
    SameAfterStrip(w, t);
    WordCountBeforeSpace(s, w);
  }

  /** Joining two texts with a space adds their word counts. */
  lemma WordCountJoin(s: string, t: string)
    ensures WordCount(s + " " + t) == WordCount(s) + WordCount(t)
  {
    var sp := " ";
    assert sp == [' '];
    ConcatAssoc(s, sp, t);
    WordCountJoinAt(s, ' ', t);
  }

  lemma ConcatAssoc(a: string, b: string, c: string)
    ensures a + b + c == a + (b + c)
  {
  }

  /** `calculate_narration_duration`: 2.5 words per second plus 20% for pauses. */
  function NarrationDuration(narrationText: string): (d: real)
    ensures d == WordCount(narrationText) as real * 0.48
    ensures d >= 0.0
    ensures d == 0.0 <==> IsBlank(narrationText)
  {
    if narrationText == [] then 0.0
    else (WordCount(narrationText) as real / 2.5) * 1.2
  }

  // ---------------------------------------------------------------------------
  // resolve_attack_audio
  // ---------------------------------------------------------------------------

  const ATTACK_EXTENSIONS: seq<string> := [".wav", ".mp3"]

  function AttackPath(character: string, attackName: string, ext: string): string {
    "assets/characters/" + character + "/attacks/" + attackName + ext
  }

  function AttackCandidates(character: string, attackName: string): (c: seq<string>)
    ensures |c| == |ATTACK_EXTENSIONS|
    ensures forall j :: 0 <= j < |c| ==> c[j] == AttackPath(character, attackName, ATTACK_EXTENSIONS[j])
  {
    [AttackPath(character, attackName, ".wav"), AttackPath(character, attackName, ".mp3")]
  }

  /** The first of `paths` that exists, if any. */
  function FirstExisting(paths: seq<string>, existing: set<string>): Option<string> {
    if paths == [] then None
    else if paths[0] in existing then Some(paths[0])
    else FirstExisting(paths[1..], existing)
  }

  /** FirstExisting returns an existing candidate that no earlier candidate precedes, or None when none exists. */
  lemma {:induction false} FirstExistingSpec(paths: seq<string>, existing: set<string>)
    ensures FirstExisting(paths, existing).None? <==> (forall j :: 0 <= j < |paths| ==> paths[j] !in existing)
    ensures FirstExisting(paths, existing).Some? ==>
      exists k :: 0 <= k < |paths| && paths[k] == FirstExisting(paths, existing).value && paths[k] in existing
        && forall j :: 0 <= j < k ==> paths[j] !in existing
  {
    if paths != [] && paths[0] !in existing {
      FirstExistingSpec(paths[1..], existing);
      if FirstExisting(paths, existing).Some? {
        var k :| 0 <= k < |paths[1..]| && paths[1..][k] == FirstExisting(paths, existing).value
          && paths[1..][k] in existing && forall j :: 0 <= j < k ==> paths[1..][j] !in existing;
        assert paths[k + 1] == paths[1..][k];
        forall j | 0 <= j < k + 1 ensures paths[j] !in existing {
          if j > 0 { assert paths[j] == paths[1..][j - 1]; }
        }
      } else {
        forall j | 0 <= j < |paths| ensures paths[j] !in existing {
          if j > 0 { assert paths[j] == paths[1..][j - 1]; }
        }
      }
    } else if paths != [] {
      assert paths[0] == FirstExisting(paths, existing).value;
    }
  }

  /** `resolve_attack_audio`: tries `.wav`, then `.mp3`. */
  method ResolveAttackAudio(character: string, attackName: string, existing: set<string>)
    returns (path: Option<string>)
    ensures path == FirstExisting(AttackCandidates(character, attackName), existing)
    ensures path.Some? ==> path.value in existing
    ensures path.None? <==>
      AttackPath(character, attackName, ".wav") !in existing && AttackPath(character, attackName, ".mp3") !in existing
  {
    ghost var candidates := AttackCandidates(character, attackName);
    var i := 0;
    while i < |ATTACK_EXTENSIONS|
      invariant 0 <= i <= |ATTACK_EXTENSIONS|
      invariant FirstExisting(candidates, existing) == FirstExisting(candidates[i..], existing)
    {
      var candidate := AttackPath(character, attackName, ATTACK_EXTENSIONS[i]);
      assert candidates[i..][0] == candidate;
      assert candidates[i..][1..] == candidates[i + 1..];
      if candidate in existing {
        return Some(candidate);
      }
      i := i + 1;
    }
    path := None;
  }

  // ---------------------------------------------------------------------------
  // What each step requests, and what validation keeps
  // ---------------------------------------------------------------------------

  /** The asset kept after the existence check: a missing one degrades to None. */
  function Checked(asset: Option<string>, existing: set<string>): (r: Option<string>)
    ensures r.Some? <==> asset.Some? && asset.value in existing
    ensures r.Some? ==> r == asset
  {
    if asset.Some? && asset.value !in existing then None else asset
  }

  /** What the existence check logs for one slot. */
  function MissingOf(asset: Option<string>, existing: set<string>): (m: seq<string>)
    ensures |m| <= 1
    ensures m != [] <==> asset.Some? && asset.value !in existing
    ensures m != [] ==> m == [asset.value]
  {
    if asset.Some? && asset.value !in existing then [asset.value] else []
  }

  function RequestedBgm(intent: AudioIntent): Option<string> {
    if intent.useSilence then None else Lookup(BGM_MAP, intent.bgm)
  }

  function RequestedAmbience(intent: AudioIntent): Option<string> {
    if intent.useSilence then None else Lookup(AMBIENCE_MAP, intent.ambience)
  }

  /** The SFX is looked up only at confidence 0.6 or above. */
  function RequestedSfx(intent: AudioIntent, confidence: real): Option<string> {
    if confidence >= 0.6 then Lookup(SFX_MAP, intent.impactSfx) else None
  }

  function RequestedIntro(intent: AudioIntent): Option<string> {
    if intent.introStinger then Some(STINGER_MAP["intro"]) else None
  }

  function RequestedOutro(intent: AudioIntent): Option<string> {
    if intent.outroStinger then Some(STINGER_MAP["outro"]) else None
  }

  /** The silence lead-in before narration: 30% of the scene, at most 2 s. */
  function SilenceLeadIn(intent: AudioIntent, sceneDuration: real): real {
    if intent.useSilence then RealMin(2.0, sceneDuration * 0.3) else 0.0
  }

  function RealMin(a: real, b: real): real { if b < a then b else a }
  function RealMax(a: real, b: real): real { if b > a then b else a }

  /** The read-time estimate used for "before" narration: 150 words/min at 5 characters a word. */
  function ReadTime(narrationText: string): real {
    |narrationText| as real / (150.0 * 5.0 / 60.0)
  }

  /** An attack is looked up only with a non-empty character and name. */
  predicate AttackRequested(attack: Option<AttackIntent>) {
    attack.Some? && attack.value.character != "" && attack.value.name != ""
  }

  function AttackLookup(attack: Option<AttackIntent>, existing: set<string>): Option<string>
    requires AttackRequested(attack)
  {
    FirstExisting(AttackCandidates(Lower(attack.value.character), Lower(attack.value.name)), existing)
  }

  /** The generic sound chosen from the attack's intensity. */
  function FallbackSfxName(intensity: string): string {
    if intensity == "low" then "punch" else if intensity == "high" then "explosion" else "hit"
  }

  /**
   * The intensity fallback runs when a requested attack has no asset and no
   * generic impact SFX was asked for, whatever the confidence.
   */
  predicate IntensityFallback(intent: AudioIntent, attack: Option<AttackIntent>, existing: set<string>) {
    AttackRequested(attack) && AttackLookup(attack, existing).None? && intent.impactSfx == "none"
  }

  /** The fallback table always names a known SFX. */
  lemma FallbackSfxKnown(intensity: string)
    ensures Lookup(SFX_MAP, FallbackSfxName(intensity)).Some?
    ensures intensity == "low" ==> Lookup(SFX_MAP, FallbackSfxName(intensity)) == Some("assets/sfx/punch.wav")
    ensures intensity == "high" ==> Lookup(SFX_MAP, FallbackSfxName(intensity)) == Some("assets/sfx/explosion.wav")
    ensures intensity != "low" && intensity != "high" ==>
      Lookup(SFX_MAP, FallbackSfxName(intensity)) == Some("assets/sfx/hit.wav")
  {
  }

  /** The path of the generic SFX the intensity fallback picks. */
  function FallbackSfxPath(attack: Option<AttackIntent>): (p: string)
    requires attack.Some?
    ensures Lookup(SFX_MAP, FallbackSfxName(attack.value.intensity)) == Some(p)
  {
    FallbackSfxKnown(attack.value.intensity);
    Lookup(SFX_MAP, FallbackSfxName(attack.value.intensity)).value
  }

  // ---------------------------------------------------------------------------
  // process_audio_intent
  // ---------------------------------------------------------------------------

  /** One existence check: a missing asset is logged and its slot cleared. */
  method ValidateAsset(asset: Option<string>, existing: set<string>, missing: seq<string>)
    returns (kept: Option<string>, missingAfter: seq<string>)
    ensures kept == Checked(asset, existing)
    ensures missingAfter == missing + MissingOf(asset, existing)
  {
    kept, missingAfter := asset, missing;
    if asset.Some? && asset.value !in existing {
      missingAfter := missing + [asset.value];
      kept := None;
    }
  }

  /** Silence exclusivity, then the existence check of the background pair. */
  method BackgroundStage(intent: AudioIntent, existing: set<string>)
    returns (bgmFile: Option<string>, ambienceFile: Option<string>, missing: seq<string>)
    ensures bgmFile == Checked(RequestedBgm(intent), existing)
    ensures ambienceFile == Checked(RequestedAmbience(intent), existing)
    ensures missing == MissingOf(RequestedBgm(intent), existing) + MissingOf(RequestedAmbience(intent), existing)
  {
    if intent.useSilence {
      bgmFile := None;
      ambienceFile := None;
    } else {
      bgmFile := Lookup(BGM_MAP, intent.bgm);
      ambienceFile := Lookup(AMBIENCE_MAP, intent.ambience);
    }
    bgmFile, missing := ValidateAsset(bgmFile, existing, []);
    ambienceFile, missing := ValidateAsset(ambienceFile, existing, missing);
  }

  /** The confidence-gated SFX, timed to the camera when its file exists. */
  method SfxStage(
    intent: AudioIntent, confidence: real, camera: CameraTiming, sceneDuration: real,
    existing: set<string>, missing: seq<string>)
    returns (sfxFile: Option<string>, sfxTimestamp: Option<real>, missingAfter: seq<string>)
    ensures sfxFile == Checked(RequestedSfx(intent, confidence), existing)
    ensures sfxTimestamp == if sfxFile.Some?
                            then Some(SfxTimestamp(camera.action, camera.duration.GetOr(sceneDuration)))
                            else None
    ensures missingAfter == missing + MissingOf(RequestedSfx(intent, confidence), existing)
  {
    sfxFile, sfxTimestamp, missingAfter := None, None, missing;
    if confidence >= 0.6 {
      sfxFile := Lookup(SFX_MAP, intent.impactSfx);
      if sfxFile.Some? {
        sfxFile, missingAfter := ValidateAsset(sfxFile, existing, missing);
        if sfxFile.Some? {
          sfxTimestamp := Some(SfxTimestamp(camera.action, camera.duration.GetOr(sceneDuration)));
        }
      }
    }
  }

  /** The requested stingers, existence-checked in the order intro, outro. */
  method StingerStage(intent: AudioIntent, existing: set<string>, missing: seq<string>)
    returns (introStinger: Option<string>, outroStinger: Option<string>, missingAfter: seq<string>)
    ensures introStinger == Checked(RequestedIntro(intent), existing)
    ensures outroStinger == Checked(RequestedOutro(intent), existing)
    ensures missingAfter == missing + MissingOf(RequestedIntro(intent), existing)
                                    + MissingOf(RequestedOutro(intent), existing)
  {
    introStinger := if intent.introStinger then Some(STINGER_MAP["intro"]) else None;
    outroStinger := if intent.outroStinger then Some(STINGER_MAP["outro"]) else None;
    introStinger, missingAfter := ValidateAsset(introStinger, existing, missing);
    outroStinger, missingAfter := ValidateAsset(outroStinger, existing, missingAfter);
  }

  /** Narration placement; "before" narration raises the silence lead-in to its read time. */
  method NarrationStage(intent: AudioIntent, narrationText: string, silenceBefore: real)
    returns (narrationPlacement: string, narrationDuckAmount: real, silenceAfter: real)
    ensures narrationText == [] ==> narrationPlacement == "none" && narrationDuckAmount == 0.0
    ensures narrationText != [] ==> narrationPlacement == intent.narrationPlacement && narrationDuckAmount == 0.3
    ensures silenceAfter == if narrationText != [] && intent.narrationPlacement == "before"
                            then RealMax(silenceBefore, ReadTime(narrationText))
                            else silenceBefore
    ensures silenceAfter >= silenceBefore
  {
    narrationPlacement, narrationDuckAmount, silenceAfter := "none", 0.0, silenceBefore;
    if narrationText != [] {
      narrationPlacement := intent.narrationPlacement;
      narrationDuckAmount := 0.3;
      if narrationPlacement == "before" {
        silenceAfter := RealMax(silenceBefore, ReadTime(narrationText));
      }
    }
  }

  /**
   * One background layer (bgm over ambience) and one impact layer (sfx over
   * intro over outro) beside the dialogue. The three-layer trim is kept as
   * written; the count never exceeds three, so it never fires.
   */
  method LayerStage(
    bgmFile: Option<string>, ambienceFile: Option<string>, sfxFile: Option<string>,
    introStinger: Option<string>, outroStinger: Option<string>)
    returns (ambienceAfter: Option<string>, introAfter: Option<string>, outroAfter: Option<string>,
             layerCount: int)
    ensures ambienceAfter == if bgmFile.Some? then None else ambienceFile
    ensures introAfter == introStinger && outroAfter == outroStinger
    ensures layerCount == 1 + B2I(bgmFile.Some? || ambienceFile.Some?)
                            + B2I(sfxFile.Some? || introStinger.Some? || outroStinger.Some?)
    ensures 1 <= layerCount <= 3
  {
    ambienceAfter, introAfter, outroAfter := ambienceFile, introStinger, outroStinger;
    var layers := ["dialogue"];
    if bgmFile.Some? {
      layers := layers + ["bgm"];
      ambienceAfter := None;
    } else if ambienceFile.Some? {
      layers := layers + ["ambience"];
    }
    if sfxFile.Some? {
      layers := layers + ["sfx"];
    } else if introStinger.Some? {
      layers := layers + ["intro_stinger"];
    } else if outroStinger.Some? {
      layers := layers + ["outro_stinger"];
    }
    layerCount := |layers|;
    if layerCount > 3 {
      if "outro_stinger" in layers {
        outroAfter := None;
        layerCount := layerCount - 1;
      }
      if layerCount > 3 && "intro_stinger" in layers {
        introAfter := None;
        layerCount := layerCount - 1;
      }
    }
  }

  /** Background, SFX and stingers resolved and existence-checked, then the layer budget applied. */
  method AssetStages(
    intent: AudioIntent, camera: CameraTiming, sceneDuration: real, confidence: real, existing: set<string>)
    returns (bgmFile: Option<string>, ambienceFile: Option<string>,
             sfxFile: Option<string>, sfxTimestamp: Option<real>,
             introStinger: Option<string>, outroStinger: Option<string>,
             missingAssets: seq<string>, layerCount: int)
    ensures bgmFile == Checked(RequestedBgm(intent), existing)
    ensures ambienceFile == if bgmFile.Some? then None else Checked(RequestedAmbience(intent), existing)
    ensures sfxFile == Checked(RequestedSfx(intent, confidence), existing)
    ensures sfxTimestamp == if sfxFile.Some?
                            then Some(SfxTimestamp(camera.action, camera.duration.GetOr(sceneDuration)))
                            else None
    ensures introStinger == Checked(RequestedIntro(intent), existing)
    ensures outroStinger == Checked(RequestedOutro(intent), existing)
    ensures missingAssets == MissingLog(intent, confidence, existing)
    ensures layerCount == 1 + B2I(bgmFile.Some? || ambienceFile.Some?)
                            + B2I(sfxFile.Some? || introStinger.Some? || outroStinger.Some?)
  {
    bgmFile, ambienceFile, missingAssets := BackgroundStage(intent, existing);
    sfxFile, sfxTimestamp, missingAssets := SfxStage(intent, confidence, camera, sceneDuration, existing, missingAssets);
    introStinger, outroStinger, missingAssets := StingerStage(intent, existing, missingAssets);
    ambienceFile, introStinger, outroStinger, layerCount :=
      LayerStage(bgmFile, ambienceFile, sfxFile, introStinger, outroStinger);
  }

  /**
   * The attack stage: look up the named attack; on a miss either mark the
   * generic SFX as the fallback or pick one from the intensity.
   */
  method AttackStage(
    intent: AudioIntent, attack: Option<AttackIntent>, camera: CameraTiming,
    dialogueDuration: real, existing: set<string>,
    sfxFile: Option<string>, sfxTimestamp: Option<real>, layerCount: int)
    returns (attackAudio: Option<string>, attackTimestamp: Option<real>,
             sfxFileAfter: Option<string>, sfxTimestampAfter: Option<real>,
             layerCountAfter: int, characterAudioFallback: bool)
    requires intent.impactSfx == "none" ==> sfxFile.None?
    ensures attackAudio == if AttackRequested(attack) then AttackLookup(attack, existing) else None
    ensures attackTimestamp == if attackAudio.Some? then Some(AttackTiming(camera.action, dialogueDuration)) else None
    ensures !IntensityFallback(intent, attack, existing) ==>
      sfxFileAfter == sfxFile && sfxTimestampAfter == sfxTimestamp
    ensures IntensityFallback(intent, attack, existing) ==>
      && sfxFileAfter == Some(FallbackSfxPath(attack))
      && sfxTimestampAfter == if FallbackSfxPath(attack) in existing
                              then Some(SfxTimestamp(camera.action, camera.duration.GetOr(dialogueDuration)))
                              else sfxTimestamp
    ensures layerCountAfter == layerCount + B2I(attackAudio.Some? ||
      (IntensityFallback(intent, attack, existing) && FallbackSfxPath(attack) in existing))
    ensures characterAudioFallback <==>
      && AttackRequested(attack) && AttackLookup(attack, existing).None?
      && ((sfxFile.None? && intent.impactSfx != "none")
          || (intent.impactSfx == "none" && FallbackSfxPath(attack) in existing))
  {
    attackAudio, attackTimestamp := None, None;
    sfxFileAfter, sfxTimestampAfter, layerCountAfter := sfxFile, sfxTimestamp, layerCount;
    characterAudioFallback := false;
    if attack.Some? {
      var character := Lower(attack.value.character);
      var attackName := Lower(attack.value.name);
      if character != "" && attackName != "" {
        attackAudio := ResolveAttackAudio(character, attackName, existing);
        if attackAudio.Some? {
          attackTimestamp := Some(AttackTiming(camera.action, dialogueDuration));
          layerCountAfter := layerCountAfter + 1;
        } else if sfxFile.None? && intent.impactSfx != "none" {
          characterAudioFallback := true;
        } else if sfxFile.None? {
          var fallbackSfx := FallbackSfxName(attack.value.intensity);
          sfxFileAfter := Lookup(SFX_MAP, fallbackSfx);
          if sfxFileAfter.Some? && sfxFileAfter.value in existing {
            sfxTimestampAfter := Some(SfxTimestamp(camera.action, camera.duration.GetOr(dialogueDuration)));
            layerCountAfter := layerCountAfter + 1;
            characterAudioFallback := true;
          }
        }
      }
    }
  }

  /**
   * What `process_audio_intent` returns for the given inputs, slot by slot:
   * the parameter record is fully determined by the intent, the scene facts
   * and the set of existing files.
   */
  predicate IsDecisionFor(
    intent: AudioIntent, narrationText: string, dialogueDuration: real, camera: CameraTiming,
    sceneDuration: real, confidence: real, attack: Option<AttackIntent>, existing: set<string>,
    d: AudioDecision)
  {
    // silence lead-in, raised (never lowered) by "before" narration
    && d.silenceBefore == (if narrationText != [] && intent.narrationPlacement == "before"
                           then RealMax(SilenceLeadIn(intent, sceneDuration), ReadTime(narrationText))
                           else SilenceLeadIn(intent, sceneDuration))
    // background: silence suppresses it, a missing file degrades it, bgm wins over ambience
    && d.bgmFile == Checked(RequestedBgm(intent), existing)
    && d.ambienceFile == (if d.bgmFile.Some? then None else Checked(RequestedAmbience(intent), existing))
    && d.duckBgm
    // impact SFX: confidence-gated and existence-checked, except in the attack fallback,
    // which ignores confidence and may keep a missing path with no timestamp
    && (if IntensityFallback(intent, attack, existing) then
          && d.sfxFile == Some(FallbackSfxPath(attack))
          && d.sfxTimestamp == (if FallbackSfxPath(attack) in existing
                                then Some(SfxTimestamp(camera.action, camera.duration.GetOr(dialogueDuration)))
                                else None)
        else
          && d.sfxFile == Checked(RequestedSfx(intent, confidence), existing)
          && d.sfxTimestamp == (if d.sfxFile.Some?
                                then Some(SfxTimestamp(camera.action, camera.duration.GetOr(sceneDuration)))
                                else None))
    // stingers are kept even when an SFX wins the impact slot
    && d.introStinger == Checked(RequestedIntro(intent), existing)
    && d.outroStinger == Checked(RequestedOutro(intent), existing)
    // narration
    && d.narrationPlacement == (if narrationText == [] then "none" else intent.narrationPlacement)
    && d.narrationDuckAmount == (if narrationText == [] then 0.0 else 0.3)
    // attack audio
    && d.attackAudio == (if AttackRequested(attack) then AttackLookup(attack, existing) else None)
    && d.attackTimestamp == (if d.attackAudio.Some? then Some(AttackTiming(camera.action, dialogueDuration)) else None)
    && (d.characterAudioFallback <==>
          && AttackRequested(attack) && AttackLookup(attack, existing).None?
          && ((Checked(RequestedSfx(intent, confidence), existing).None? && intent.impactSfx != "none")
              || (intent.impactSfx == "none" && FallbackSfxPath(attack) in existing)))
    // diagnostics: the requested but missing assets, in check order
    && d.missingAssets == MissingLog(intent, confidence, existing)
    // layers: dialogue + one background + one impact, then the attack stage adds at most one
    && d.layerCount ==
         1 + B2I(d.bgmFile.Some? || d.ambienceFile.Some?)
           + B2I(Checked(RequestedSfx(intent, confidence), existing).Some?
                 || d.introStinger.Some? || d.outroStinger.Some?)
           + B2I(d.attackAudio.Some?
                 || (IntensityFallback(intent, attack, existing) && FallbackSfxPath(attack) in existing))
  }

  /** The specification leaves no slot open: two records that meet it for the same inputs are equal. */
  lemma DecisionUnique(
    intent: AudioIntent, narrationText: string, dialogueDuration: real, camera: CameraTiming,
    sceneDuration: real, confidence: real, attack: Option<AttackIntent>, existing: set<string>,
    d1: AudioDecision, d2: AudioDecision)
    requires IsDecisionFor(intent, narrationText, dialogueDuration, camera, sceneDuration, confidence, attack, existing, d1)
    requires IsDecisionFor(intent, narrationText, dialogueDuration, camera, sceneDuration, confidence, attack, existing, d2)
    ensures d1 == d2
  {
  }

  /** `process_audio_intent` */
  method ProcessAudioIntent(
    intent: AudioIntent,
    narrationText: string,
    dialogueDuration: real,
    camera: CameraTiming,
    sceneDuration: real,
    confidence: real,
    attack: Option<AttackIntent>,
    existing: set<string>)
    returns (d: AudioDecision)
    ensures IsDecisionFor(intent, narrationText, dialogueDuration, camera, sceneDuration, confidence, attack, existing, d)
  {
    // relative silence: 30% of the scene, at most 2 s
    var silenceBefore := 0.0;
    if intent.useSilence {
      silenceBefore := RealMin(2.0, sceneDuration * 0.3);
    }
    var bgmFile, ambienceFile, sfxFile, sfxTimestamp, introStinger, outroStinger, missingAssets, layerCount :=
      AssetStages(intent, camera, sceneDuration, confidence, existing);
    var duckBgm := true;
    var narrationPlacement, narrationDuckAmount;
    narrationPlacement, narrationDuckAmount, silenceBefore := NarrationStage(intent, narrationText, silenceBefore);
    var attackAudio, attackTimestamp, characterAudioFallback;
    attackAudio, attackTimestamp, sfxFile, sfxTimestamp, layerCount, characterAudioFallback :=
      AttackStage(intent, attack, camera, dialogueDuration, existing, sfxFile, sfxTimestamp, layerCount);
    d := AudioDecision(
      bgmFile, ambienceFile, sfxFile, sfxTimestamp, introStinger, outroStinger,
      silenceBefore, duckBgm, layerCount, narrationPlacement, narrationDuckAmount,
      attackAudio, attackTimestamp, missingAssets, characterAudioFallback);
  }

  // ---------------------------------------------------------------------------
  // Properties of the tables and the plan
  // ---------------------------------------------------------------------------

  /** The diagnostic log of a compile: what it lists is absent, and every requested absent asset is listed. */
  function MissingLog(intent: AudioIntent, confidence: real, existing: set<string>): seq<string> {
    MissingOf(RequestedBgm(intent), existing) + MissingOf(RequestedAmbience(intent), existing)
    + MissingOf(RequestedSfx(intent, confidence), existing)
    + MissingOf(RequestedIntro(intent), existing) + MissingOf(RequestedOutro(intent), existing)
  }

  lemma MissingLogExact(intent: AudioIntent, confidence: real, existing: set<string>)
    ensures forall p :: p in MissingLog(intent, confidence, existing) ==> p !in existing
    ensures forall a :: a in [RequestedBgm(intent), RequestedAmbience(intent), RequestedSfx(intent, confidence),
                              RequestedIntro(intent), RequestedOutro(intent)] && a.Some? && a.value !in existing
                        ==> a.value in MissingLog(intent, confidence, existing)
    ensures |MissingLog(intent, confidence, existing)| <= 5
    ensures intent.useSilence ==> |MissingLog(intent, confidence, existing)| <= 3
  {
  }

  /**
   * Consequences of the decision rules: silence empties the background, at
   * most one background layer survives, a timestamp goes with an existing SFX
   * only, low confidence silences the generic SFX, nothing missing is
   * reported as kept, and the layer count stays within four.
   */
  lemma DecisionProperties(
    intent: AudioIntent, narrationText: string, dialogueDuration: real, camera: CameraTiming,
    sceneDuration: real, confidence: real, attack: Option<AttackIntent>, existing: set<string>,
    d: AudioDecision)
    requires IsDecisionFor(intent, narrationText, dialogueDuration, camera, sceneDuration, confidence, attack, existing, d)
    ensures d.silenceBefore >= SilenceLeadIn(intent, sceneDuration)
    ensures intent.useSilence ==> d.bgmFile.None? && d.ambienceFile.None?
    ensures !(d.bgmFile.Some? && d.ambienceFile.Some?)
    ensures d.sfxTimestamp.Some? <==> d.sfxFile.Some? && d.sfxFile.value in existing
    ensures !IntensityFallback(intent, attack, existing) && confidence < 0.6 ==> d.sfxFile.None?
    ensures d.attackAudio.Some? ==> d.attackAudio.value in existing
    ensures forall p :: p in d.missingAssets ==> p !in existing
    ensures d.characterAudioFallback ==> d.attackAudio.None?
    ensures 1 <= d.layerCount <= 4
  {
    if AttackRequested(attack) {
      FirstExistingSpec(AttackCandidates(Lower(attack.value.character), Lower(attack.value.name)), existing);
    }
    MissingLogExact(intent, confidence, existing);
  }

  /** The silence lead-in is 30% of the scene capped at 2 s (10 s gives 2.0, 4 s gives 1.2). */
  lemma SilenceLeadInBounds(intent: AudioIntent, sceneDuration: real)
    requires sceneDuration > 0.0
    ensures 0.0 <= SilenceLeadIn(intent, sceneDuration) <= 2.0
    ensures intent.useSilence ==> SilenceLeadIn(intent, sceneDuration) <= 0.3 * sceneDuration
    ensures intent.useSilence && sceneDuration == 10.0 ==> SilenceLeadIn(intent, sceneDuration) == 2.0
    ensures intent.useSilence && sceneDuration == 4.0 ==> SilenceLeadIn(intent, sceneDuration) == 1.2
  {
  }

  /** Read-time estimate: 12.5 characters per second, so a long "before" narration exceeds the 2 s cap. */
  lemma ReadTimeExceedsCap(narrationText: string)
    requires |narrationText| > 25
    ensures ReadTime(narrationText) > 2.0
  {
  }

  /** Every table path is distinct from every other category's, so the logged names identify the slot. */
  lemma AssetTablesDisjoint(a: string, b: string, c: string)
    requires Lookup(BGM_MAP, a).Some? && Lookup(AMBIENCE_MAP, b).Some? && Lookup(SFX_MAP, c).Some?
    ensures Lookup(BGM_MAP, a) != Lookup(AMBIENCE_MAP, b)
    ensures Lookup(BGM_MAP, a) != Lookup(SFX_MAP, c)
    ensures Lookup(AMBIENCE_MAP, b) != Lookup(SFX_MAP, c)
  {
  }
}
