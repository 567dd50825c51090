/** Speech generation in the command-line demo: the segment loop with its
    total and per-segment time budgets, the choice between keeping a single
    segment and concatenating several, and the save with retries. Clock
    readings and the outcome of each file write are given as inputs. */
module DemoGeneration {
  import opened Wrappers
  import opened Audio

  /** Budget for the whole generation, in seconds. */
  const MAX_GEN_TIME: real := 300.0
  /** Budget between two consecutive segments, in seconds. */
  const MAX_SEGMENT_TIME: real := 60.0
  /** Attempts the demo allows its file write. */
  const DEFAULT_RETRIES: int := 3

  // ---------------------------------------------------------------------------
  // Saving with retries

  /** Tries the file write up to `maxRetries` times; `writeOk(k)` is whether
      the k-th attempt (from 0) succeeds. Returns at the first success; after
      a failure it sleeps before the next attempt but not after the last one.
      `attempts` counts write attempts and `sleeps` counts the pauses. */
  method SaveAudioWithRetry(maxRetries: int, writeOk: nat -> bool) returns (ok: bool, attempts: nat, sleeps: nat)
    ensures ok <==> exists k :: 0 <= k < maxRetries && writeOk(k)
    ensures ok ==> 0 < attempts <= maxRetries && writeOk(attempts - 1)
    ensures forall k :: 0 <= k < attempts - 1 ==> !writeOk(k)
    ensures !ok ==> attempts == (if maxRetries > 0 then maxRetries else 0)
    ensures sleeps == (if attempts == 0 then 0 else attempts - 1)
  {
    attempts, sleeps := 0, 0;
    var attempt := 0;
    while attempt < maxRetries
      invariant 0 <= attempt
      invariant maxRetries > 0 ==> attempt < maxRetries
      invariant maxRetries <= 0 ==> attempt == 0
      invariant attempts == attempt && sleeps == attempt
      invariant forall k :: 0 <= k < attempt ==> !writeOk(k)
    {
      attempts := attempts + 1;
      if writeOk(attempt) {
        return true, attempts, sleeps;
      }
      if attempt < maxRetries - 1 {
        sleeps := sleeps + 1;
      } else {
        return false, attempts, sleeps;
      }
      attempt := attempt + 1;
    }
    return false, attempts, sleeps;
  }

  // ---------------------------------------------------------------------------
  // The segment loop

  /** A segment together with the clock reading taken when it arrives. */
  datatype Reading = Reading(segment: Segment, now: real)

  /** The engine's segments with their clock readings. When `raises` holds the
      engine raises an exception once `items` are exhausted. */
  datatype TimedStream = TimedStream(items: seq<Reading>, raises: bool)

  /** Why the segment loop stopped; the category the demo logs. */
  datatype StopReason = Exhausted | TotalTimeExceeded | SegmentTimeExceeded | StreamFailed

  function SegmentsOf(items: seq<Reading>): seq<Segment>
  {
    seq(|items|, i requires 0 <= i < |items| => items[i].segment)
  }

  /** The reading the gap of the i-th segment is measured from: the start
      time for the first segment, otherwise the previous segment's reading
      (the loop resets its segment timer after every accepted segment, with
      or without audio). */
  function SegmentStart(items: seq<Reading>, start: real, i: nat): real
    requires i <= |items|
  {
    if i == 0 then start else items[i - 1].now
  }

  /** The i-th segment passes both checks: at most MAX_GEN_TIME since the
      start and at most MAX_SEGMENT_TIME since the previous segment (a
      difference equal to a budget passes). */
  predicate WithinBudgets(items: seq<Reading>, start: real, i: nat)
    requires i < |items|
  {
    && items[i].now - start <= MAX_GEN_TIME
    && items[i].now - SegmentStart(items, start, i) <= MAX_SEGMENT_TIME
  }

  function AcceptedFrom(items: seq<Reading>, start: real, i: nat): (n: nat)
    requires i <= |items|
    ensures i <= n <= |items|
    decreases |items| - i
  {
    if i == |items| || !WithinBudgets(items, start, i) then i
    else AcceptedFrom(items, start, i + 1)
  }

  /** How many segments the loop accepts: the index of the first one that
      fails a check, or all of them. */
  function AcceptedCount(items: seq<Reading>, start: real): (n: nat)
    ensures n <= |items|
    ensures forall j | 0 <= j < n :: WithinBudgets(items, start, j)
    ensures n < |items| ==> !WithinBudgets(items, start, n)
  {
    AcceptedFromSpec(items, start, 0);
    AcceptedFrom(items, start, 0)
  }

  lemma {:induction false} AcceptedFromSpec(items: seq<Reading>, start: real, i: nat)
    requires i <= |items|
    ensures forall j | i <= j < AcceptedFrom(items, start, i) :: WithinBudgets(items, start, j)
    ensures AcceptedFrom(items, start, i) < |items| ==> !WithinBudgets(items, start, AcceptedFrom(items, start, i))
    decreases |items| - i
  {
    if i < |items| && WithinBudgets(items, start, i) {
      AcceptedFromSpec(items, start, i + 1);
    }
  }

  /** The accepted segments form the longest prefix whose segments all pass
      both checks: every accepted one passes, and the one after them fails. */
  lemma AcceptedCountIsFirstViolation(items: seq<Reading>, start: real, n: nat)
    requires n <= |items|
    requires forall j | 0 <= j < n :: WithinBudgets(items, start, j)
    requires n < |items| ==> !WithinBudgets(items, start, n)
    ensures AcceptedCount(items, start) == n
  {
  }

  /** The audio the loop collects: that of the accepted segments, in order.
      It is never more buffers than accepted segments, and is a prefix of the
      audio of the whole stream. */
  function Collected(items: seq<Reading>, start: real): (bufs: seq<AudioBuffer>)
    ensures |bufs| <= AcceptedCount(items, start)
    ensures bufs <= CollectAudio(SegmentsOf(items))
  {
    var n := AcceptedCount(items, start);
    assert SegmentsOf(items[..n]) <= SegmentsOf(items);
    CollectAudioPrefix(SegmentsOf(items[..n]), SegmentsOf(items));
    CollectAudio(SegmentsOf(items[..n]))
  }

  /** Consumes the stream, stopping at the first segment that exceeds the
      total or the per-segment budget; that segment is not kept. Segments
      without audio are skipped without stopping the loop. An exception from
      the engine ends the loop and keeps what was collected. */
  method ConsumeSegments(stream: TimedStream, start: real)
    returns (allAudio: seq<AudioBuffer>, consumed: nat, reason: StopReason)
    ensures consumed == AcceptedCount(stream.items, start)
    ensures allAudio == Collected(stream.items, start)
    ensures reason == (if consumed < |stream.items| then
                         (if stream.items[consumed].now - start > MAX_GEN_TIME then TotalTimeExceeded
                          else SegmentTimeExceeded)
                       else if stream.raises then StreamFailed
                       else Exhausted)
  {
    var items := stream.items;
    var segmentStart := start;
    allAudio := [];
    reason := Exhausted;
    var i := 0;
    while i < |items|
      invariant 0 <= i <= |items|
      invariant forall j | 0 <= j < i :: WithinBudgets(items, start, j)
      invariant segmentStart == SegmentStart(items, start, i)
      invariant allAudio == CollectAudio(SegmentsOf(items[..i]))
    {
      var now := items[i].now;
      if now - start > MAX_GEN_TIME {
        reason := TotalTimeExceeded;
        break;
      }
      if now - segmentStart > MAX_SEGMENT_TIME {
        reason := SegmentTimeExceeded;
        break;
      }
      segmentStart := now;
      var segment := items[i].segment;
      CollectAudioAppend(SegmentsOf(items[..i]), segment);
      assert SegmentsOf(items[..i + 1]) == SegmentsOf(items[..i]) + [segment];
      if segment.audio.Some? {
        allAudio := allAudio + [segment.audio.value];
      }
      i := i + 1;
    }
    if i == |items| && stream.raises {
      reason := StreamFailed;
    }
    AcceptedCountIsFirstViolation(items, start, i);
    consumed := i;
  }

  /** The loop only ever cuts the stream short: what it collects is a prefix
      of the audio of all segments, and it is all of it when every segment
      passes both checks. */
  lemma CollectedIsPrefix(items: seq<Reading>, start: real)
    ensures Collected(items, start) <= CollectAudio(SegmentsOf(items))
    ensures (forall j | 0 <= j < |items| :: WithinBudgets(items, start, j)) ==>
              Collected(items, start) == CollectAudio(SegmentsOf(items))
  {
    var n := AcceptedCount(items, start);
    if forall j | 0 <= j < |items| :: WithinBudgets(items, start, j) {
      assert items[..n] == items;
    }
  }

  /** A segment arriving more than MAX_GEN_TIME after the start is never
      kept, and neither is any later one. */
  lemma LateSegmentsDropped(items: seq<Reading>, start: real, k: nat)
    requires k < |items| && items[k].now - start > MAX_GEN_TIME
    ensures AcceptedCount(items, start) <= k
  {
    assert !WithinBudgets(items, start, k);
  }

  // ---------------------------------------------------------------------------
  // Accumulation and the save

  /** The audio to save: nothing when no segment was collected, the single
      segment unchanged when there is one, the concatenation otherwise. */
  function FinalAudio(allAudio: seq<AudioBuffer>): (r: Option<AudioBuffer>)
    ensures r.None? <==> allAudio == []
    ensures r.Some? ==> r.value == Flatten(allAudio) && |r.value| == TotalLength(allAudio)
  {
    if |allAudio| == 0 then None
    else if |allAudio| == 1 then
      FlattenSingle(allAudio[0]);
      assert allAudio == [allAudio[0]];
      FlattenLength(allAudio);
      Some(allAudio[0])
    else
      FlattenLength(allAudio);
      Some(Flatten(allAudio))
  }

  /** What a generation request ends in, once the voice, text and speed are
      settled. */
  datatype GenerationResult =
    | VoiceFileMissing
    | GeneratorInitFailed
    | NoAudio
    | Saved(audio: AudioBuffer)
    | SaveFailed

  /** The result a generation request must have: the voice file must exist,
      the generator must be built (`None` stands for the exception building
      it raises), the loop's audio is saved when there is any and some of
      the DEFAULT_RETRIES write attempts succeeds. */
  ghost function ExpectedGeneration(voiceFileExists: bool, stream: Option<TimedStream>, start: real, writeOk: nat -> bool)
    : GenerationResult
  {
    if !voiceFileExists then VoiceFileMissing
    else if stream.None? then GeneratorInitFailed
    else
      match FinalAudio(Collected(stream.value.items, start))
      case None => NoAudio
      case Some(audio) =>
        if exists k :: 0 <= k < DEFAULT_RETRIES && writeOk(k) then Saved(audio) else SaveFailed
  }

  /** Runs one generation: checks the voice file, builds the generator,
      consumes the segments and saves what was collected. */
  method GenerateSpeech(voiceFileExists: bool, stream: Option<TimedStream>, start: real, writeOk: nat -> bool)
    returns (result: GenerationResult)
    ensures result == ExpectedGeneration(voiceFileExists, stream, start, writeOk)
  {
    if !voiceFileExists {
      return VoiceFileMissing;
    }
    if stream.None? {
      return GeneratorInitFailed;
    }
    var allAudio, consumed, reason := ConsumeSegments(stream.value, start);
    var finalAudio := FinalAudio(allAudio);
    if finalAudio.None? {
      return NoAudio;
    }
    var ok, attempts, sleeps := SaveAudioWithRetry(DEFAULT_RETRIES, writeOk);
    result := if ok then Saved(finalAudio.value) else SaveFailed;
  }

  /** What is saved is the in-order concatenation of the accepted segments'
      audio: exactly as long as those buffers together, and a prefix of the
      audio the whole stream carries. */
  lemma SavedAudioIsBudgetedPrefix(voiceFileExists: bool, stream: Option<TimedStream>, start: real, writeOk: nat -> bool)
    requires ExpectedGeneration(voiceFileExists, stream, start, writeOk).Saved?
    ensures stream.Some?
    ensures var audio := ExpectedGeneration(voiceFileExists, stream, start, writeOk).audio;
            && Collected(stream.value.items, start) != []
            && |audio| == TotalLength(Collected(stream.value.items, start))
            && audio <= Flatten(CollectAudio(SegmentsOf(stream.value.items)))
  {
    var items := stream.value.items;
    CollectedIsPrefix(items, start);
    FlattenPrefix(Collected(items, start), CollectAudio(SegmentsOf(items)));
  }

  /** An exception from the engine in the middle of the stream does not fail
      the request: the result is the same as if the stream had just ended. */
  lemma StreamErrorKeepsPartialResult(voiceFileExists: bool, items: seq<Reading>, start: real, writeOk: nat -> bool)
    ensures ExpectedGeneration(voiceFileExists, Some(TimedStream(items, true)), start, writeOk)
         == ExpectedGeneration(voiceFileExists, Some(TimedStream(items, false)), start, writeOk)
  {
  }

  /** When no accepted segment carries audio nothing is saved, and the
      request reports that no audio was generated. */
  lemma NoCollectedAudioMeansNoSave(stream: TimedStream, start: real, writeOk: nat -> bool)
    requires Collected(stream.items, start) == []
    ensures ExpectedGeneration(true, Some(stream), start, writeOk) == NoAudio
  {
  }

  /** Two segments with audio, both within budget, and a first write that
      succeeds: the saved audio is the first buffer followed by the second. */
  lemma TwoSegmentsSaved(b1: AudioBuffer, b2: AudioBuffer, start: real, t1: real, t2: real, writeOk: nat -> bool)
    requires start <= t1 <= start + MAX_SEGMENT_TIME
    requires t1 <= t2 <= t1 + MAX_SEGMENT_TIME
    requires writeOk(0)
    ensures var items := [Reading(Segment("", "", Some(b1)), t1), Reading(Segment("", "", Some(b2)), t2)];
            ExpectedGeneration(true, Some(TimedStream(items, false)), start, writeOk) == Saved(b1 + b2)
  {
    var items := [Reading(Segment("", "", Some(b1)), t1), Reading(Segment("", "", Some(b2)), t2)];
    AcceptedCountIsFirstViolation(items, start, 2);
    assert items[..2] == items;
    var segs := SegmentsOf(items);
    CollectAudioAllPresent(segs);
    assert CollectAudio(segs) == [b1, b2];
    FlattenAppend([b1], [b2]);
    FlattenSingle(b1);
    FlattenSingle(b2);
    assert [b1] + [b2] == [b1, b2];
  }
}
