/**
 * SynthNodeUI of js/nodes/synth-node.js: eight oscillator voices, the
 * choice of a voice for a new note (the voice already playing it, else an
 * idle one, else the least recently used), note-on and note-off, and the
 * waveform selector.
 *
 * `Date.now()` and the audio clock are passed in as `now`. The gain
 * envelopes and the note frequency scheduled on the host's AudioParams
 * are not part of the model; `releaseEndTime` records when the release
 * ends.
 */
module SynthNode {
  import opened JsValues

  const VoiceCount: nat := 8

  datatype Wave = Sine | Triangle | Sawtooth | Square

  /** `this.waves` */
  const Waves: seq<Wave> := [Sine, Triangle, Sawtooth, Square]

  /** One entry of `this.voices`; `noteNumber` is None for null. */
  datatype Voice = Voice(inUse: bool, noteNumber: Option<int>, lastUsed: real, releaseEndTime: real, wave: Wave)

  /** A voice that is sounding the given note. */
  predicate Playing(v: Voice, note: int) {
    v.inUse && v.noteNumber == Some(note)
  }

  /** `voices.find(v => v.inUse && v.noteNumber === note)`, as an index. */
  function FindPlaying(vs: seq<Voice>, note: int): (r: Option<nat>)
    ensures r.None? <==> forall j :: 0 <= j < |vs| ==> !Playing(vs[j], note)
    ensures r.Some? ==> (r.value < |vs| && Playing(vs[r.value], note)
                         && forall j :: 0 <= j < r.value ==> !Playing(vs[j], note))
  {
    if |vs| == 0 then None
    else if Playing(vs[0], note) then Some(0)
    else match FindPlaying(vs[1..], note)
      case None => None
      case Some(k) => Some(k + 1)
  }

  /** `voices.find(v => !v.inUse)`, as an index. */
  function FindIdle(vs: seq<Voice>): (r: Option<nat>)
    ensures r.None? <==> forall j :: 0 <= j < |vs| ==> vs[j].inUse
    ensures r.Some? ==> (r.value < |vs| && !vs[r.value].inUse
                         && forall j :: 0 <= j < r.value ==> vs[j].inUse)
  {
    if |vs| == 0 then None
    else if !vs[0].inUse then Some(0)
    else match FindIdle(vs[1..])
      case None => None
      case Some(k) => Some(k + 1)
  }

  /**
   * `voices.reduce((oldest, v) => v.lastUsed < oldest.lastUsed ? v :
   * oldest, voices[0])` over the first n voices, as an index.
   */
  function Oldest(vs: seq<Voice>, n: nat): (k: nat)
    requires 1 <= n <= |vs|
    ensures k < n
    ensures forall j :: 0 <= j < n ==> vs[k].lastUsed <= vs[j].lastUsed
    ensures forall j :: 0 <= j < k ==> vs[j].lastUsed > vs[k].lastUsed
  {
    if n == 1 then 0
    else
      var best := Oldest(vs, n - 1);
      if vs[n - 1].lastUsed < vs[best].lastUsed then n - 1 else best
  }

  /**
   * `findFreeVoice(noteNumber)`: the first voice already playing the
   * note, else the first idle voice, else the least recently used voice
   * (the earliest one on a tie).
   */
  function FindFreeVoice(vs: seq<Voice>, note: int): (k: nat)
    requires |vs| > 0
    ensures k < |vs|
  {
    match FindPlaying(vs, note)
    case Some(k) => k
    case None =>
      match FindIdle(vs)
      case Some(k) => k
      case None => Oldest(vs, |vs|)
  }

  /** The three cases of the voice choice, each in terms of the voices themselves. */
  lemma FreeVoiceChoice(vs: seq<Voice>, note: int)
    requires |vs| > 0
    ensures var k := FindFreeVoice(vs, note);
      && ((exists j :: 0 <= j < |vs| && Playing(vs[j], note)) ==>
            Playing(vs[k], note) && forall j :: 0 <= j < k ==> !Playing(vs[j], note))
      && ((forall j :: 0 <= j < |vs| ==> !Playing(vs[j], note)) && (exists j :: 0 <= j < |vs| && !vs[j].inUse) ==>
            !vs[k].inUse && forall j :: 0 <= j < k ==> vs[j].inUse)
      && ((forall j :: 0 <= j < |vs| ==> !Playing(vs[j], note) && vs[j].inUse) ==>
            (forall j :: 0 <= j < |vs| ==> vs[k].lastUsed <= vs[j].lastUsed)
            && forall j :: 0 <= j < k ==> vs[j].lastUsed > vs[k].lastUsed)
  {
  }

  /** No note is sounded by two voices at once. */
  ghost predicate DistinctNotes(vs: seq<Voice>) {
    forall i, j :: 0 <= i < j < |vs| && vs[i].inUse && vs[j].inUse ==> vs[i].noteNumber != vs[j].noteNumber
  }

  /** The voices after `midiNoteOn(note)` at time `now`. */
  function NoteOn(vs: seq<Voice>, note: int, now: real): (r: seq<Voice>)
    requires |vs| > 0
    ensures |r| == |vs|
  {
    var k := FindFreeVoice(vs, note);
    vs[k := vs[k].(inUse := true, noteNumber := Some(note), lastUsed := now)]
  }

  /** Note-on keeps the notes of the sounding voices distinct. */
  lemma {:induction false} NoteOnKeepsNotesDistinct(vs: seq<Voice>, note: int, now: real)
    requires |vs| > 0 && DistinctNotes(vs)
    ensures DistinctNotes(NoteOn(vs, note, now))
    ensures exists k :: 0 <= k < |vs| && Playing(NoteOn(vs, note, now)[k], note)
  {
    var k := FindFreeVoice(vs, note);
    var r := NoteOn(vs, note, now);
    FreeVoiceChoice(vs, note);
    if FindPlaying(vs, note).None? {
      forall i, j | 0 <= i < j < |r| && r[i].inUse && r[j].inUse
        ensures r[i].noteNumber != r[j].noteNumber
      {
        if i == k {
          assert !Playing(vs[j], note);
        } else if j == k {
          assert !Playing(vs[i], note);
        }
      }
    }
    assert Playing(r[k], note);
  }

  class Synth {
    var voices: array<Voice>
    var currentWaveIndex: nat
    /** `env.release` in seconds. */
    var release: real

    ghost predicate Valid()
      reads this, voices
    {
      voices.Length == VoiceCount && currentWaveIndex < |Waves| && DistinctNotes(voices[..])
    }

    /** The voices `initAudio` creates: eight silent idle sawtooth voices. */
    constructor()
      ensures Valid() && fresh(voices)
      ensures currentWaveIndex == 2 && release == 0.3
      ensures forall i :: 0 <= i < VoiceCount ==> voices[i] == Voice(false, None, 0.0, 0.0, Sawtooth)
    {
      voices := new Voice[VoiceCount](_ => Voice(false, None, 0.0, 0.0, Sawtooth));
      currentWaveIndex := 2;
      release := 0.3;
    }

    /** `setWaveform(newIndex)`: every voice gets the same waveform. */
    method SetWaveform(newIndex: nat)
      requires Valid() && newIndex < |Waves|
      modifies this`currentWaveIndex, voices
      ensures Valid() && release == old(release)
      ensures currentWaveIndex == newIndex
      ensures forall i :: 0 <= i < voices.Length ==> voices[i] == old(voices[i]).(wave := Waves[newIndex])
    {
      currentWaveIndex := newIndex;
      var i := 0;
      while i < voices.Length
        invariant 0 <= i <= voices.Length && currentWaveIndex == newIndex
        invariant forall j :: 0 <= j < i ==> voices[j] == old(voices[j]).(wave := Waves[newIndex])
        invariant forall j :: i <= j < voices.Length ==> voices[j] == old(voices[j])
      {
        voices[i] := voices[i].(wave := Waves[newIndex]);
        i := i + 1;
      }
      assert forall a :: 0 <= a < voices.Length ==>
        voices[a].inUse == old(voices[a]).inUse && voices[a].noteNumber == old(voices[a]).noteNumber;
    }

    /** The waveform parameter's handler: `Math.max(0, Math.min(3, Math.round(v)))`. */
    method OnWaveformChange(v: real)
      requires Valid()
      modifies this`currentWaveIndex, voices
      ensures Valid()
      ensures currentWaveIndex as int == if Round(v) < 0 then 0 else if Round(v) > 3 then 3 else Round(v)
      ensures forall i :: 0 <= i < voices.Length ==> voices[i] == old(voices[i]).(wave := Waves[currentWaveIndex])
    {
      var r := Round(v);
      var idx: nat := if r < 0 then 0 else if r > 3 then 3 else r;
      SetWaveform(idx);
    }

    /** The release slider's handler: later note-offs release over `v` seconds; the voices are untouched. */
    method OnReleaseChange(v: real)
      requires Valid()
      modifies this`release
      ensures Valid() && release == v
      ensures voices == old(voices) && voices[..] == old(voices[..])
    {
      release := v;
    }

    /** `findFreeVoice(noteNumber)` */
    method FindFreeVoiceIndex(noteNumber: int) returns (k: nat)
      requires Valid()
      ensures k == FindFreeVoice(voices[..], noteNumber)
    {
      k := FindFreeVoice(voices[..], noteNumber);
    }

    /** `midiNoteOn(noteNumber)` at time `now`. */
    method MidiNoteOn(noteNumber: int, now: real)
      requires Valid()
      modifies voices
      ensures Valid()
      ensures voices[..] == NoteOn(old(voices[..]), noteNumber, now)
    {
      var k := FindFreeVoiceIndex(noteNumber);
      NoteOnKeepsNotesDistinct(voices[..], noteNumber, now);
      voices[k] := voices[k].(inUse := true, noteNumber := Some(noteNumber), lastUsed := now);
    }

    /**
     * `midiNoteOff(noteNumber)` at time `now`: the voice playing the note,
     * if any, gets a release end; it stays in use and keeps its note.
     */
    method MidiNoteOff(noteNumber: int, now: real)
      requires Valid()
      modifies voices
      ensures Valid()
      ensures match FindPlaying(old(voices[..]), noteNumber)
        case None => voices[..] == old(voices[..])
        case Some(k) => voices[..] == old(voices[..])[k := old(voices[k]).(releaseEndTime := now + release)]
    {
      var found := FindPlaying(voices[..], noteNumber);
      if found.None? {
        return;
      }
      var k := found.value;
      voices[k] := voices[k].(releaseEndTime := now + release);
      assert forall j :: 0 <= j < voices.Length ==>
        voices[j].inUse == old(voices[j]).inUse && voices[j].noteNumber == old(voices[j]).noteNumber;
    }
  }
}
