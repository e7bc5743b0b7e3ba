/**
 * `VADProcessor`: a two-state voice-activity segmenter. Incoming PCM is cut
 * into frames, each frame is classified speech / non-speech by an external
 * classifier, and an utterance is finalised once more than
 * `MaxSilenceFrames` non-speech frames have followed speech.
 */
module Vad {
  import opened Wrappers
  import opened Pcm

  const SampleRate: nat := 16000
  const FrameDurationMs: nat := 20
  /** `SampleRate * FrameDurationMs / 1000`: 320 samples (`FrameSizeOfRate`). */
  const FrameSize: nat := 320
  /** 15 frames, 300 ms. */
  const MaxSilenceFrames: nat := 15

  /** The frame length is 20 ms of audio at 16 kHz. */
  lemma FrameSizeOfRate()
    ensures FrameSize == SampleRate * FrameDurationMs / 1000
  {
  }

  /** What `np.array_split` raises when asked for zero sections. */
  const NoSectionsMessage := "number sections must be larger than 0."

  type Frame = seq<Sample>

  /** `np.concatenate(frames)`. */
  function Flatten(frames: seq<Frame>): (r: seq<Sample>)
    ensures |frames| == 1 ==> r == frames[0]
  {
    if frames == [] then [] else frames[0] + Flatten(frames[1..])
  }

  lemma {:induction false} FlattenAppend(a: seq<Frame>, b: seq<Frame>)
    ensures Flatten(a + b) == Flatten(a) + Flatten(b)
  {
    if a != [] {
      assert (a + b)[1..] == a[1..] + b;
      FlattenAppend(a[1..], b);
    } else {
      assert a + b == b;
    }
  }

  /**
   * `count` consecutive pieces of `xs`: the first `extras` pieces one sample
   * longer than the others.
   */
  function Sections(xs: seq<Sample>, count: nat, extras: nat, each: nat): (r: seq<Frame>)
    requires extras <= count && |xs| == count * each + extras
    ensures |r| == count && Flatten(r) == xs
    ensures forall k :: 0 <= k < count ==> |r[k]| == each + (if k < extras then 1 else 0)
    decreases count
  {
    if count == 0 then []
    else
      var size := if extras > 0 then each + 1 else each;
      var remaining := if extras > 0 then extras - 1 else 0;
      PeelSection(|xs|, count, extras, each);
      var rest := Sections(xs[size..], count - 1, remaining, each);
      var r := [xs[..size]] + rest;
      assert r[0] == xs[..size] && r[1..] == rest;
      assert forall k :: 1 <= k < count ==> r[k] == rest[k - 1];
      assert Flatten(r) == xs[..size] + Flatten(rest);
      assert xs[..size] + xs[size..] == xs;
      r
  }

  /** Taking the first piece off leaves `count - 1` pieces with one fewer long piece. */
  lemma PeelSection(total: nat, count: nat, extras: nat, each: nat)
    requires 0 < count && extras <= count && total == count * each + extras
    ensures (if extras > 0 then each + 1 else each) <= total
    ensures total - (if extras > 0 then each + 1 else each)
            == (count - 1) * each + (if extras > 0 then extras - 1 else 0)
  {
    assert count * each == (count - 1) * each + each;
  }

  lemma DivMod(total: nat, n: nat)
    requires n > 0
    ensures total == n * (total / n) + total % n && total % n < n
  {
  }

  /**
   * `np.array_split(xs, n)`: ValueError for `n == 0`; otherwise `n`
   * consecutive pieces that concatenate back to `xs`, the first `|xs| % n`
   * of length `|xs| / n + 1` and the rest of length `|xs| / n`.
   */
  function ArraySplit(xs: seq<Sample>, n: nat): (r: Result<seq<Frame>, string>)
    ensures r.Failure? <==> n == 0
    ensures r.Failure? ==> r.error == NoSectionsMessage
    ensures r.Success? ==> |r.value| == n && Flatten(r.value) == xs
    ensures r.Success? ==> forall k :: 0 <= k < n ==> |r.value[k]| == |xs| / n + (if k < |xs| % n then 1 else 0)
  {
    if n == 0 then Failure(NoSectionsMessage)
    else
      DivMod(|xs|, n);
      Success(Sections(xs, n, |xs| % n, |xs| / n))
  }

  /** The frames `process_audio` iterates over: `np.array_split(pcm, len(pcm) // FRAME_SIZE)`. */
  function Frames(pcm: seq<Sample>): (r: Result<seq<Frame>, string>)
    ensures r.Failure? <==> |pcm| < FrameSize
    ensures r.Success? ==> |r.value| == |pcm| / FrameSize && Flatten(r.value) == pcm
  {
    ArraySplit(pcm, |pcm| / FrameSize)
  }

  lemma {:induction false} MulMonotone(n: nat, a: nat, b: nat)
    requires a <= b
    ensures n * a <= n * b
  {
    if n > 0 {
      MulMonotone(n - 1, a, b);
      assert n * a == (n - 1) * a + a;
      assert n * b == (n - 1) * b + b;
    }
  }

  /** If `n` pieces of length `lo` fit into `total`, the quotient `total / n` is at least `lo`. */
  lemma QuotientAtLeast(total: nat, n: nat, lo: nat)
    requires n > 0 && n * lo <= total
    ensures total / n >= lo
  {
    DivMod(total, n);
    if total / n < lo {
      MulMonotone(n, total / n + 1, lo);
    }
  }

  /** Euclidean division is unique. */
  lemma DivUnique(total: nat, n: nat, q: nat, m: nat)
    requires n > 0 && m < n && total == n * q + m
    ensures total / n == q && total % n == m
  {
    DivMod(total, n);
    var d := total / n;
    if d < q {
      MulMonotone(n, d + 1, q);
    } else if d > q {
      MulMonotone(n, q + 1, d);
    }
  }

  /**
   * Framing fails exactly for fewer than `FrameSize` samples; otherwise the
   * frames concatenate back to the input, there are `|pcm| / FrameSize` of
   * them, none is shorter than `FrameSize` (so the length check in the loop
   * never skips one), and all are exactly `FrameSize` long when the length
   * is a multiple of it.
   */
  lemma FramesSpec(pcm: seq<Sample>)
    ensures Frames(pcm).Failure? <==> |pcm| < FrameSize
    ensures Frames(pcm).Success? ==>
      var fs := Frames(pcm).value;
      && |fs| == |pcm| / FrameSize && Flatten(fs) == pcm
      && (forall k :: 0 <= k < |fs| ==> |fs[k]| >= FrameSize)
      && (|pcm| % FrameSize == 0 ==> forall k :: 0 <= k < |fs| ==> |fs[k]| == FrameSize)
  {
    var n := |pcm| / FrameSize;
    DivMod(|pcm|, FrameSize);
    if n > 0 {
      QuotientAtLeast(|pcm|, n, FrameSize);
      if |pcm| % FrameSize == 0 {
        assert |pcm| == n * FrameSize;
        DivUnique(|pcm|, n, FrameSize, 0);
      }
    }
  }

  /** The segmenter's fields: `buffer`, `silence_counter` and `in_speech`. */
  datatype Segmenter = Segmenter(buffer: seq<Frame>, silenceCounter: nat, inSpeech: bool)

  const Idle := Segmenter([], 0, false)

  /** One classified frame either keeps the segmenter running or finalises the buffered frames. */
  datatype StepOutcome = Continue(next: Segmenter) | Finalise(utterance: seq<Frame>)

  /** The body of the frame loop for one frame of full length. */
  function Step(s: Segmenter, frame: Frame, speech: bool): (r: StepOutcome)
    ensures r.Finalise? <==> !speech && s.inSpeech && s.silenceCounter >= MaxSilenceFrames
    ensures r.Finalise? ==> r.utterance == s.buffer + [frame]
    ensures r.Continue? && (speech || s.inSpeech) ==> r.next.buffer == s.buffer + [frame]
    ensures r.Continue? && speech ==> r.next.inSpeech && r.next.silenceCounter == 0
    ensures r.Continue? && !speech && !s.inSpeech ==> r.next == s
  {
    if speech then Continue(Segmenter(s.buffer + [frame], 0, true))
    else if s.inSpeech then
      if s.silenceCounter + 1 > MaxSilenceFrames then Finalise(s.buffer + [frame])
      else Continue(Segmenter(s.buffer + [frame], s.silenceCounter + 1, true))
    else Continue(s)
  }

  datatype RunResult = RunResult(state: Segmenter, utterance: Option<seq<Frame>>)

  /**
   * The frame loop of `process_audio`: short frames are skipped, and the
   * first finalisation resets the segmenter and ends the call.
   */
  function Run(s: Segmenter, frames: seq<Frame>, isSpeech: Frame -> bool): (r: RunResult)
    ensures r.utterance.Some? ==> r.state == Idle
    ensures frames == [] ==> r == RunResult(s, None)
    decreases |frames|
  {
    if frames == [] then RunResult(s, None)
    else if |frames[0]| < FrameSize then Run(s, frames[1..], isSpeech)
    else match Step(s, frames[0], isSpeech(frames[0]))
      case Finalise(u) => RunResult(Idle, Some(u))
      case Continue(next) => Run(next, frames[1..], isSpeech)
  }

  /** `process_audio` on a segmenter state: the framing error or the loop's outcome. */
  function Process(s: Segmenter, pcm: seq<Sample>, isSpeech: Frame -> bool): (r: Result<RunResult, string>)
    ensures r.Failure? <==> |pcm| < FrameSize
    ensures r.Failure? ==> r.error == NoSectionsMessage
    ensures r.Success? && r.value.utterance.Some? ==> r.value.state == Idle
  {
    match Frames(pcm)
    case Failure(e) => Failure(e)
    case Success(frames) => Success(Run(s, frames, isSpeech))
  }

  /**
   * The invariant between calls: the buffer is non-empty exactly while in
   * speech, the counter stays within `MaxSilenceFrames` and is 0 outside
   * speech; the buffer starts with a speech frame and ends with
   * `silenceCounter` non-speech frames preceded by a speech frame.
   */
  ghost predicate Consistent(s: Segmenter, isSpeech: Frame -> bool) {
    && (s.buffer != [] <==> s.inSpeech)
    && s.silenceCounter <= MaxSilenceFrames
    && (!s.inSpeech ==> s.silenceCounter == 0)
    && (s.inSpeech ==>
          && s.silenceCounter < |s.buffer|
          && isSpeech(s.buffer[0])
          && isSpeech(s.buffer[|s.buffer| - 1 - s.silenceCounter])
          && forall k :: |s.buffer| - s.silenceCounter <= k < |s.buffer| ==> !isSpeech(s.buffer[k]))
  }

  /**
   * A finalised utterance: it starts with a speech frame and ends with
   * exactly `MaxSilenceFrames + 1` non-speech frames after a speech frame.
   */
  ghost predicate IsUtterance(frames: seq<Frame>, isSpeech: Frame -> bool) {
    && |frames| >= MaxSilenceFrames + 2
    && isSpeech(frames[0])
    && isSpeech(frames[|frames| - MaxSilenceFrames - 2])
    && forall k :: |frames| - MaxSilenceFrames - 1 <= k < |frames| ==> !isSpeech(frames[k])
  }

  /**
   * One frame: a speech frame is buffered, sets `inSpeech` and clears the
   * counter; a non-speech frame outside speech changes nothing; inside speech
   * it is buffered and counted, and finalises exactly when the count exceeds
   * `MaxSilenceFrames`, yielding the buffered frames in order. The invariant
   * is kept and every finalised buffer is an utterance.
   */
  lemma StepSpec(s: Segmenter, frame: Frame, isSpeech: Frame -> bool)
    requires Consistent(s, isSpeech)
    ensures var r := Step(s, frame, isSpeech(frame));
      && (isSpeech(frame) ==> r == Continue(Segmenter(s.buffer + [frame], 0, true)))
      && (!isSpeech(frame) && !s.inSpeech ==> r == Continue(s))
      && (!isSpeech(frame) && s.inSpeech ==>
            (r.Finalise? <==> s.silenceCounter == MaxSilenceFrames)
            && (r.Finalise? ==> r.utterance == s.buffer + [frame])
            && (r.Continue? ==> r.next == Segmenter(s.buffer + [frame], s.silenceCounter + 1, true)))
      && (r.Continue? ==> Consistent(r.next, isSpeech))
      && (r.Finalise? ==> IsUtterance(r.utterance, isSpeech))
  {
    var b := s.buffer + [frame];
    assert forall k :: 0 <= k < |s.buffer| ==> b[k] == s.buffer[k];
    assert b[|b| - 1] == frame;
    if isSpeech(frame) {
      assert Consistent(Segmenter(b, 0, true), isSpeech);
    } else if s.inSpeech {
      if s.silenceCounter == MaxSilenceFrames {
        assert IsUtterance(b, isSpeech);
      } else {
        assert Consistent(Segmenter(b, s.silenceCounter + 1, true), isSpeech);
      }
    }
  }

  /**
   * A whole call keeps the invariant; a call that finalises leaves the
   * segmenter idle and returns an utterance.
   */
  lemma {:induction false} RunSpec(s: Segmenter, frames: seq<Frame>, isSpeech: Frame -> bool)
    requires Consistent(s, isSpeech)
    ensures var r := Run(s, frames, isSpeech);
      && Consistent(r.state, isSpeech)
      && (r.utterance.Some? ==> r.state == Idle && IsUtterance(r.utterance.value, isSpeech))
    decreases |frames|
  {
    if frames != [] {
      if |frames[0]| < FrameSize {
        RunSpec(s, frames[1..], isSpeech);
      } else {
        StepSpec(s, frames[0], isSpeech);
        match Step(s, frames[0], isSpeech(frames[0]))
        case Finalise(u) =>
        case Continue(next) => RunSpec(next, frames[1..], isSpeech);
      }
    }
  }

  /**
   * Running over `a + b` is running over `a` and, unless that finalised,
   * continuing over `b`: after a finalisation no further frame is looked at,
   * so one call yields at most one utterance.
   */
  lemma {:induction false} RunAppend(s: Segmenter, a: seq<Frame>, b: seq<Frame>, isSpeech: Frame -> bool)
    ensures var ra := Run(s, a, isSpeech);
      Run(s, a + b, isSpeech) == if ra.utterance.Some? then ra else Run(ra.state, b, isSpeech)
    decreases |a|
  {
    if a == [] {
      assert a + b == b;
    } else {
      assert (a + b)[0] == a[0] && (a + b)[1..] == a[1..] + b;
      if |a[0]| < FrameSize {
        RunAppend(s, a[1..], b, isSpeech);
      } else {
        match Step(s, a[0], isSpeech(a[0]))
        case Finalise(u) =>
        case Continue(next) => RunAppend(next, a[1..], b, isSpeech);
      }
    }
  }

  predicate FullLength(frames: seq<Frame>) {
    forall k :: 0 <= k < |frames| ==> |frames[k]| >= FrameSize
  }

  predicate AllSpeech(frames: seq<Frame>, isSpeech: Frame -> bool) {
    forall k :: 0 <= k < |frames| ==> isSpeech(frames[k])
  }

  predicate NoSpeech(frames: seq<Frame>, isSpeech: Frame -> bool) {
    forall k :: 0 <= k < |frames| ==> !isSpeech(frames[k])
  }

  /** Silence alone never finalises and leaves an idle segmenter idle. */
  lemma {:induction false} SilenceOnly(frames: seq<Frame>, isSpeech: Frame -> bool)
    requires NoSpeech(frames, isSpeech)
    ensures Run(Idle, frames, isSpeech) == RunResult(Idle, None)
    decreases |frames|
  {
    if frames != [] {
      SilenceOnly(frames[1..], isSpeech);
    }
  }

  /** A run of speech frames is buffered and leaves the counter at 0. */
  lemma {:induction false} SpeechRun(s: Segmenter, frames: seq<Frame>, isSpeech: Frame -> bool)
    requires frames != [] && FullLength(frames) && AllSpeech(frames, isSpeech)
    ensures Run(s, frames, isSpeech) == RunResult(Segmenter(s.buffer + frames, 0, true), None)
    decreases |frames|
  {
    var next := Segmenter(s.buffer + [frames[0]], 0, true);
    if |frames| > 1 {
      SpeechRun(next, frames[1..], isSpeech);
      assert next.buffer + frames[1..] == s.buffer + frames;
    } else {
      assert frames[1..] == [];
      assert frames == [frames[0]];
    }
  }

  /** Up to `MaxSilenceFrames` non-speech frames in speech are buffered and counted. */
  lemma {:induction false} TrailingSilence(s: Segmenter, frames: seq<Frame>, isSpeech: Frame -> bool)
    requires s.inSpeech && s.silenceCounter + |frames| <= MaxSilenceFrames
    requires FullLength(frames) && NoSpeech(frames, isSpeech)
    ensures Run(s, frames, isSpeech)
         == RunResult(Segmenter(s.buffer + frames, s.silenceCounter + |frames|, true), None)
    decreases |frames|
  {
    if frames == [] {
      assert s.buffer + frames == s.buffer;
    } else {
      var next := Segmenter(s.buffer + [frames[0]], s.silenceCounter + 1, true);
      TrailingSilence(next, frames[1..], isSpeech);
      assert next.buffer + frames[1..] == s.buffer + frames;
    }
  }

  /** In speech with a clear counter, `MaxSilenceFrames + 1` silent frames finalise the buffer and them. */
  lemma FinalSilence(s: Segmenter, tail: seq<Frame>, isSpeech: Frame -> bool)
    requires s.inSpeech && s.silenceCounter == 0
    requires FullLength(tail) && NoSpeech(tail, isSpeech) && |tail| == MaxSilenceFrames + 1
    ensures Run(s, tail, isSpeech) == RunResult(Idle, Some(s.buffer + tail))
  {
    var last := |tail| - 1;
    RunAppend(s, tail[..last], tail[last..], isSpeech);
    assert tail[..last] + tail[last..] == tail;
    TrailingSilence(s, tail[..last], isSpeech);
    assert s.buffer + tail[..last] + [tail[last]] == s.buffer + tail;
  }

  /** From idle, speech then `MaxSilenceFrames + 1` silent frames is finalised as one utterance. */
  lemma SpeechThenSilence(speech: seq<Frame>, tail: seq<Frame>, isSpeech: Frame -> bool)
    requires FullLength(speech) && FullLength(tail)
    requires AllSpeech(speech, isSpeech) && NoSpeech(tail, isSpeech)
    requires speech != [] && |tail| == MaxSilenceFrames + 1
    ensures Run(Idle, speech + tail, isSpeech) == RunResult(Idle, Some(speech + tail))
  {
    RunAppend(Idle, speech, tail, isSpeech);
    SpeechRun(Idle, speech, isSpeech);
    assert Idle.buffer + speech == speech;
    FinalSilence(Segmenter(speech, 0, true), tail, isSpeech);
  }

  /**
   * The single-utterance scenario: silence, then speech, then
   * `MaxSilenceFrames + 1` silent frames finalise exactly the speech and the
   * trailing silence, and the segmenter is idle afterwards.
   */
  lemma SingleUtterance(silence: seq<Frame>, speech: seq<Frame>, tail: seq<Frame>, isSpeech: Frame -> bool)
    requires FullLength(silence) && FullLength(speech) && FullLength(tail)
    requires NoSpeech(silence, isSpeech) && AllSpeech(speech, isSpeech) && NoSpeech(tail, isSpeech)
    requires speech != [] && |tail| == MaxSilenceFrames + 1
    ensures Run(Idle, silence + speech + tail, isSpeech) == RunResult(Idle, Some(speech + tail))
  {
    SilenceOnly(silence, isSpeech);
    RunAppend(Idle, silence, speech + tail, isSpeech);
    assert silence + speech + tail == silence + (speech + tail);
    SpeechThenSilence(speech, tail, isSpeech);
  }

  /** The processor object: the classifier is fixed at construction (`webrtcvad.Vad(2)`). */
  class VadProcessor {
    const isSpeech: Frame -> bool
    var buffer: seq<Frame>
    var silenceCounter: nat
    var inSpeech: bool

    function State(): Segmenter
      reads this
    {
      Segmenter(buffer, silenceCounter, inSpeech)
    }

    ghost predicate Valid()
      reads this
    {
      Consistent(State(), isSpeech)
    }

    constructor (isSpeech: Frame -> bool)
      ensures Valid() && State() == Idle && this.isSpeech == isSpeech
    {
      this.isSpeech := isSpeech;
      buffer, silenceCounter, inSpeech := [], 0, false;
    }

    /** `reset()`: all three fields back to their initial values. */
    method Reset()
      modifies this
      ensures Valid() && State() == Idle
    {
      buffer := [];
      silenceCounter := 0;
      inSpeech := false;
    }

    /**
     * The loop body for one frame: a speech frame is buffered and clears the
     * counter; a non-speech frame in speech is buffered and counted. Reports
     * whether the counter now exceeds `MaxSilenceFrames`, with the buffer
     * then holding the utterance; otherwise the new state is `Step`'s.
     */
    method Advance(frame: Frame) returns (finalise: bool)
      requires Valid()
      modifies this
      ensures var o := Step(old(State()), frame, isSpeech(frame));
        && (finalise <==> o.Finalise?)
        && (o.Finalise? ==> buffer == o.utterance)
        && (o.Continue? ==> State() == o.next && Valid())
    {
      StepSpec(State(), frame, isSpeech);
      finalise := false;
      if isSpeech(frame) {
        buffer := buffer + [frame];
        inSpeech := true;
        silenceCounter := 0;
      } else if inSpeech {
        silenceCounter := silenceCounter + 1;
        buffer := buffer + [frame];
        finalise := silenceCounter > MaxSilenceFrames;
      }
    }

    /**
     * `process_audio(pcm)`: fails, changing nothing, on fewer than
     * `FrameSize` samples; otherwise returns the concatenated utterance when
     * one was finalised (and the segmenter is then idle), or nothing with the
     * state carried over to the next call.
     */
    method ProcessAudio(pcm: seq<Sample>) returns (r: Result<Option<seq<Sample>>, string>)
      requires Valid()
      modifies this
      ensures Valid()
      ensures Process(old(State()), pcm, isSpeech).Failure? ==>
        r == Failure(NoSectionsMessage) && State() == old(State())
      ensures Process(old(State()), pcm, isSpeech).Success? ==>
        var out := Process(old(State()), pcm, isSpeech).value;
        && State() == out.state
        && r == Success(if out.utterance.Some? then Some(Flatten(out.utterance.value)) else None)
    {
      var split := ArraySplit(pcm, |pcm| / FrameSize);
      if split.Failure? {
        return Failure(split.error);
      }
      var frames := split.value;
      ghost var start := State();
      assert Process(start, pcm, isSpeech) == Success(Run(start, frames, isSpeech));
      var i := 0;
      while i < |frames|
        invariant 0 <= i <= |frames|
        invariant Valid()
        invariant Run(State(), frames[i..], isSpeech) == Run(start, frames, isSpeech)
      {
        var frame := frames[i];
        assert frames[i..][0] == frame && frames[i..][1..] == frames[i + 1..];
        if |frame| < FrameSize {
          i := i + 1;
          continue;
        }
        var finalise := Advance(frame);
        if finalise {
          var chunk := Flatten(buffer);
          Reset();
          return Success(Some(chunk));
        }
        i := i + 1;
      }
      return Success(None);
    }
  }
}
