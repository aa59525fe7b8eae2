/**
 * Character voice memory: a character name, lower-cased and stripped, is mapped
 * to one of eight text-to-speech voices by the CRC-32 of its UTF-8 encoding,
 * and the choice is remembered so that the character keeps its voice. Reading
 * and writing the JSON file that persists the memory are outside the model.
 */
module VoiceMemory {
  import opened Wrappers
  import opened Strings

  const VOICE_POOL: seq<string> := [
    "en-US-GuyNeural",
    "en-US-JennyNeural",
    "en-GB-RyanNeural",
    "en-GB-SoniaNeural",
    "en-AU-LiamNeural",
    "en-AU-NatashaNeural",
    "en-US-ChristopherNeural",
    "en-US-MichelleNeural"]

  // ---------------------------------------------------------------------------
  // UTF-8 and CRC-32
  // ---------------------------------------------------------------------------

  type byte = bv8

  function Byte(n: nat): byte
    requires n < 256
  {
    n as byte
  }

  /** The UTF-8 encoding of one scalar value (RFC 3629, section 3). */
  function Utf8Char(c: char): (r: seq<byte>)
    ensures 1 <= |r| <= 4
    ensures (c as int < 0x80) <==> |r| == 1
  {
    var cp := c as int;
    if cp < 0x80 then [Byte(cp)]
    else if cp < 0x800 then [Byte(0xC0 + cp / 0x40), Byte(0x80 + cp % 0x40)]
    else if cp < 0x10000 then
      [Byte(0xE0 + cp / 0x1000), Byte(0x80 + (cp / 0x40) % 0x40), Byte(0x80 + cp % 0x40)]
    else
      [Byte(0xF0 + cp / 0x40000), Byte(0x80 + (cp / 0x1000) % 0x40),
       Byte(0x80 + (cp / 0x40) % 0x40), Byte(0x80 + cp % 0x40)]
  }

  /** `s.encode('utf-8')` */
  function Utf8(s: string): (r: seq<byte>)
    ensures |s| <= |r| <= 4 * |s|
    ensures (forall i :: 0 <= i < |s| ==> s[i] as int < 0x80) ==> |r| == |s|
  {
    if s == [] then []
    else
      assert forall i :: 0 <= i < |s[1..]| ==> s[1..][i] == s[i + 1];
      Utf8Char(s[0]) + Utf8(s[1..])
  }

  /** The reflected CRC-32 polynomial of IEEE 802.3 (zlib's `crc32`). */
  const CRC_POLY: bv32 := 0xEDB88320

  /** `n` rounds of the bitwise shift-and-reduce step. */
  function CrcShift(c: bv32, n: nat): bv32
    decreases n
  {
    if n == 0 then c
    else CrcShift(if c & 1 == 1 then (c >> 1) ^ CRC_POLY else c >> 1, n - 1)
  }

  /** The register after one more byte. */
  function CrcByte(crc: bv32, b: byte): bv32 {
    CrcShift(crc ^ (b as bv32), 8)
  }

  function CrcUpdate(crc: bv32, data: seq<byte>): bv32
    decreases |data|
  {
    if data == [] then crc else CrcUpdate(CrcByte(crc, data[0]), data[1..])
  }

  /** `binascii.crc32(data) & 0xffffffff` */
  function Crc32(data: seq<byte>): bv32 {
    !CrcUpdate(0xFFFF_FFFF, data)
  }

  /** Feeding the register two pieces in turn is feeding it their concatenation. */
  lemma {:induction false} CrcUpdateAppend(crc: bv32, a: seq<byte>, b: seq<byte>)
    ensures CrcUpdate(crc, a + b) == CrcUpdate(CrcUpdate(crc, a), b)
    decreases |a|
  {
    if a == [] {
      assert a + b == b;
    } else {
      assert (a + b)[0] == a[0] && (a + b)[1..] == a[1..] + b;
      CrcUpdateAppend(CrcByte(crc, a[0]), a[1..], b);
    }
  }

  /** The CRC of `a + b` resumes from the CRC of `a`, as zlib's running `crc32(b, crc32(a))` does. */
  lemma Crc32Resume(a: seq<byte>, b: seq<byte>)
    ensures Crc32(a + b) == !CrcUpdate(!Crc32(a), b)
  {
    var c := CrcUpdate(0xFFFF_FFFF, a);
    calc {
      Crc32(a + b);
      !CrcUpdate(0xFFFF_FFFF, a + b);
      { CrcUpdateAppend(0xFFFF_FFFF, a, b); }
      !CrcUpdate(c, b);
      { DoubleNot(c); }
      !CrcUpdate(!!c, b);
      !CrcUpdate(!Crc32(a), b);
    }
  }

  lemma DoubleNot(c: bv32)
    ensures !!c == c
  {
  }

  /** The model agrees with the standard CRC-32 on the empty input and on "a". */
  lemma Crc32KnownValues()
    ensures Crc32([]) == 0
    ensures Crc32([0x61]) == 0xE8B7BE43
  {
    var steps: seq<bv32> := [0xFFFFFF9E, 0x7FFFFFCF, 0xD2477CC7, 0x849B3D43, 0xAFF51D81,
                             0xBA420DE0, 0x5D2106F0, 0x2E908378, 0x174841BC];
    assert (0xFFFF_FFFF as bv32) ^ (0x61 as bv8 as bv32) == steps[0];
    assert CrcShift(steps[8], 0) == steps[8];
    assert CrcShift(steps[7], 1) == CrcShift(steps[8], 0);
    assert CrcShift(steps[6], 2) == CrcShift(steps[7], 1);
    assert CrcShift(steps[5], 3) == CrcShift(steps[6], 2);
    assert CrcShift(steps[4], 4) == CrcShift(steps[5], 3);
    assert CrcShift(steps[3], 5) == CrcShift(steps[4], 4);
    assert CrcShift(steps[2], 6) == CrcShift(steps[3], 5);
    assert CrcShift(steps[1], 7) == CrcShift(steps[2], 6);
    assert CrcShift(steps[0], 8) == CrcShift(steps[1], 7);
    assert CrcByte(0xFFFF_FFFF, 0x61) == steps[8];
    assert CrcUpdate(0xFFFF_FFFF, [0x61]) == CrcUpdate(steps[8], []);
  }

  // ---------------------------------------------------------------------------
  // Assignment
  // ---------------------------------------------------------------------------

  /** The voice a new, normalised name is given: the CRC bucket of its UTF-8 bytes. */
  function AssignedVoice(key: string): (v: string)
    ensures v in VOICE_POOL
  {
    VOICE_POOL[Crc32(Utf8(key)) as nat % |VOICE_POOL|]
  }

  /** `get_voice` on the memory as a value: the voice returned and the memory after. */
  function VoiceFor(memory: map<string, string>, characterName: string): (r: (string, map<string, string>))
    ensures Normalize(characterName) in r.1 && r.1[Normalize(characterName)] == r.0
    ensures r.1 == memory[Normalize(characterName) := r.0]
    ensures Normalize(characterName) in memory ==> r == (memory[Normalize(characterName)], memory)
    ensures Normalize(characterName) !in memory ==> r.0 == AssignedVoice(Normalize(characterName))
  {
    var key := Normalize(characterName);
    if key in memory then (memory[key], memory) else (AssignedVoice(key), memory[key := AssignedVoice(key)])
  }

  /** Every remembered voice is one of the pool. */
  predicate PoolOnly(memory: map<string, string>) {
    forall k :: k in memory ==> memory[k] in VOICE_POOL
  }

  /** Asking again, with any spelling that normalises to the same key, returns the same voice and changes nothing. */
  lemma GetVoiceIdempotent(memory: map<string, string>, name: string, again: string)
    requires Normalize(again) == Normalize(name)
    ensures VoiceFor(VoiceFor(memory, name).1, again) == VoiceFor(memory, name)
  {
  }

  /** The normalised name is its own key: asking with it finds the entry the first call made. */
  lemma NormalizedNameHits(memory: map<string, string>, name: string)
    ensures VoiceFor(VoiceFor(memory, name).1, Normalize(name)).0 == VoiceFor(memory, name).0
  {
    NormalizeIdempotent(name);
  }

  /** A memory holding only pool voices keeps doing so, and the voice returned is from the pool. */
  lemma VoiceForKeepsPool(memory: map<string, string>, name: string)
    requires PoolOnly(memory)
    ensures VoiceFor(memory, name).0 in VOICE_POOL
    ensures PoolOnly(VoiceFor(memory, name).1)
  {
  }

  /** The assigned voice depends only on the key, so two names that normalise alike share it. */
  lemma SameKeySameVoice(memory: map<string, string>, a: string, b: string)
    requires Normalize(a) == Normalize(b)
    ensures VoiceFor(memory, a).0 == VoiceFor(memory, b).0
  {
  }

  // ---------------------------------------------------------------------------
  // The memo object
  // ---------------------------------------------------------------------------

  class VoiceMemory {
    var memory: map<string, string>

    /** `stored` is the parsed JSON file, or None when the file does not exist. */
    constructor(stored: Option<map<string, string>>)
      ensures memory == stored.GetOr(map[])
    {
      memory := stored.GetOr(map[]);
    }

    predicate Valid()
      reads this
    {
      PoolOnly(memory)
    }

    /** `get_voice` */
    method GetVoice(characterName: string) returns (voice: string)
      modifies this
      ensures (voice, memory) == VoiceFor(old(memory), characterName)
      ensures memory == old(memory)[Normalize(characterName) := voice]
      ensures Normalize(characterName) in old(memory) ==>
        voice == old(memory)[Normalize(characterName)] && memory == old(memory)
      ensures old(Valid()) ==> Valid() && voice in VOICE_POOL
    {
      var key := Normalize(characterName);
      if key in memory {
        return memory[key];
      }
      var crc := Crc32(Utf8(key));
      var voiceIndex := crc as nat % |VOICE_POOL|;
      voice := VOICE_POOL[voiceIndex];
      memory := memory[key := voice];
    }
  }
}
