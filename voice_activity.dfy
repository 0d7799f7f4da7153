/**
 * Voice-activity detection for one audio element (`monitorSpeaking`): a
 * hysteresis over animation frames. The loudness test of a frame (an RMS
 * over the analyser's samples against a threshold) is abstracted to a
 * boolean `loud`; what is modelled is the pair of hold counters and the
 * `speaking` flag, which mirrors the element's `speaking` class.
 */
module VoiceActivity {

  /** `Math.max(1, Math.round(ms / 16))`: a duration in frames of about 16 ms, at least one. */
  function FramesFor(ms: nat): (r: nat)
    ensures r >= 1
    ensures ms < 8 ==> r == 1
    ensures ms >= 8 ==> 16 * r <= ms + 8 < 16 * r + 16
  {
    var rounded := (ms + 8) / 16;
    if rounded < 1 then 1 else rounded
  }

  /** The default attack of 100 ms is six frames, the default release of 300 ms nineteen. */
  lemma DefaultFrames()
    ensures FramesFor(100) == 6 && FramesFor(300) == 19
  {
  }

  /** The detector's state: the flag and the two hold counters. */
  datatype Vad = Vad(speaking: bool, speakHold: nat, quietHold: nat)

  /** Silent, with both counters at zero, as the monitor starts. */
  const Start := Vad(false, 0, 0)

  /**
   * One frame: a loud frame counts up `speakHold`, clears `quietHold` and
   * turns speaking on once `speakHold` reaches `attack`; a quiet frame does
   * the reverse with `release`.
   */
  function Step(v: Vad, loud: bool, attack: nat, release: nat): (r: Vad)
    ensures loud ==> r.speakHold == v.speakHold + 1 && r.quietHold == 0
    ensures !loud ==> r.quietHold == v.quietHold + 1 && r.speakHold == 0
    ensures !v.speaking && r.speaking ==> loud && r.speakHold >= attack
    ensures v.speaking && !r.speaking ==> !loud && r.quietHold >= release
    ensures loud && r.speakHold >= attack ==> r.speaking
    ensures !loud && r.quietHold >= release ==> !r.speaking
  {
    if loud then
      var hold := v.speakHold + 1;
      Vad(v.speaking || hold >= attack, hold, 0)
    else
      var hold := v.quietHold + 1;
      Vad(v.speaking && hold < release, 0, hold)
  }

  /** The frames handled one after another; the last frame is handled last. */
  function Run(v: Vad, frames: seq<bool>, attack: nat, release: nat): (r: Vad)
    decreases |frames|
  {
    if frames == [] then v
    else Step(Run(v, frames[..|frames| - 1], attack, release), frames[|frames| - 1], attack, release)
  }

  /** How many of the last frames equal `b`, counted back from the end. */
  function TrailingRun(frames: seq<bool>, b: bool): (n: nat)
    ensures n <= |frames|
    ensures forall i :: |frames| - n <= i < |frames| ==> frames[i] == b
    ensures n < |frames| ==> frames[|frames| - 1 - n] != b
    decreases |frames|
  {
    if frames == [] || frames[|frames| - 1] != b then 0
    else 1 + TrailingRun(frames[..|frames| - 1], b)
  }

  /**
   * The hold counters count the current run of loud (or quiet) frames; when
   * every frame so far belongs to the run, the count carries on from the
   * starting counter.
   */
  lemma {:induction false} HoldsCountTrailingRuns(v: Vad, frames: seq<bool>, attack: nat, release: nat)
    ensures var r := Run(v, frames, attack, release);
      && r.speakHold == TrailingRun(frames, true) + (if TrailingRun(frames, true) == |frames| then v.speakHold else 0)
      && r.quietHold == TrailingRun(frames, false) + (if TrailingRun(frames, false) == |frames| then v.quietHold else 0)
    decreases |frames|
  {
    if frames != [] {
      HoldsCountTrailingRuns(v, frames[..|frames| - 1], attack, release);
    }
  }

  /** `attack` loud frames in a row leave the detector speaking, whatever came before. */
  lemma LoudRunSpeaks(v: Vad, frames: seq<bool>, attack: nat, release: nat)
    requires attack >= 1 && TrailingRun(frames, true) >= attack
    ensures Run(v, frames, attack, release).speaking
  {
    HoldsCountTrailingRuns(v, frames, attack, release);
  }

  /** `release` quiet frames in a row leave the detector silent, whatever came before. */
  lemma QuietRunSilences(v: Vad, frames: seq<bool>, attack: nat, release: nat)
    requires release >= 1 && TrailingRun(frames, false) >= release
    ensures !Run(v, frames, attack, release).speaking
  {
    HoldsCountTrailingRuns(v, frames, attack, release);
  }

  /** Frames `j` to `j + n - 1` exist and are all loud. */
  ghost predicate LoudFrom(frames: seq<bool>, j: int, n: nat) {
    0 <= j && j + n <= |frames| && forall i :: j <= i < j + n ==> frames[i]
  }

  /**
   * From the start, the detector never reports speech unless somewhere among
   * the frames so far there were `attack` loud frames in a row: isolated
   * loud frames (clicks, pops) never light the indicator.
   */
  lemma {:induction false} SpeechNeedsLoudRun(frames: seq<bool>, attack: nat, release: nat)
    requires Run(Start, frames, attack, release).speaking
    ensures exists j :: LoudFrom(frames, j, attack)
    decreases |frames|
  {
    var prefix := frames[..|frames| - 1];
    if Run(Start, prefix, attack, release).speaking {
      SpeechNeedsLoudRun(prefix, attack, release);
      var j :| LoudFrom(prefix, j, attack);
      assert LoudFrom(frames, j, attack) by {
        forall i | j <= i < j + attack ensures frames[i] {
          assert frames[i] == prefix[i];
        }
      }
    } else {
      HoldsCountTrailingRuns(Start, frames, attack, release);
      assert LoudFrom(frames, |frames| - TrailingRun(frames, true), attack);
    }
  }

  /** A longer duration never gives fewer frames. */
  lemma FramesForMonotone(a: nat, b: nat)
    requires a <= b
    ensures FramesFor(a) <= FramesFor(b)
  {
    assert (a + 8) / 16 <= (b + 8) / 16;
  }

  /**
   * Whenever the attack lasts 24 ms or more (two frames or more, as the
   * default 100 ms does), a single loud frame from the start, a click, is
   * not reported as speech.
   */
  lemma ClickIsNotSpeech(attackMs: nat, release: nat)
    requires attackMs >= 24
    ensures !Run(Start, [true], FramesFor(attackMs), release).speaking
  {
    FramesForMonotone(24, attackMs);
    assert FramesFor(24) == 2;
    assert [true][..0] == [];
  }

  /**
   * The monitor `monitorSpeaking` runs for one element: the frame counts
   * fixed at start, and the state `tick` updates once per animation frame.
   */
  class SpeakingMonitor {
    const attackFrames: nat
    const releaseFrames: nat
    var speaking: bool
    var speakHold: nat
    var quietHold: nat

    function State(): Vad
      reads this
    {
      Vad(speaking, speakHold, quietHold)
    }

    constructor(attackMs: nat, releaseMs: nat)
      ensures attackFrames == FramesFor(attackMs) && releaseFrames == FramesFor(releaseMs)
      ensures attackFrames >= 1 && releaseFrames >= 1
      ensures State() == Start
    {
      attackFrames := FramesFor(attackMs);
      releaseFrames := FramesFor(releaseMs);
      speaking, speakHold, quietHold := false, 0, 0;
    }

    /** `tick`, given the outcome of the loudness test for this frame. */
    method Tick(loud: bool)
      modifies this
      ensures State() == Step(old(State()), loud, attackFrames, releaseFrames)
    {
      if loud {
        speakHold := speakHold + 1;
        quietHold := 0;
        if !speaking && speakHold >= attackFrames {
          speaking := true;
        }
      } else {
        quietHold := quietHold + 1;
        speakHold := 0;
        if speaking && quietHold >= releaseFrames {
          speaking := false;
        }
      }
    }
  }
}
