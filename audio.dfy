/** Audio segments yielded by the speech engine and the accumulation of their
    sample buffers, shared by the command-line demo and the web interface. */
module Audio {
  import opened Wrappers

  /** A sample buffer; samples are kept abstract as integers (the engine's
      float tensors are not modelled). */
  type AudioBuffer = seq<int>

  /** One chunk produced by the engine: the text span, its phonemes, and the
      audio for it, which may be absent. */
  datatype Segment = Segment(graphemes: string, phonemes: string, audio: Option<AudioBuffer>)

  /** A finite, one-pass stream of segments. When `raises` holds, the engine
      raises an exception after yielding `segments`; otherwise it ends. */
  datatype Stream = Stream(segments: seq<Segment>, raises: bool)

  /** The buffers of the segments that carry audio, in stream order;
      segments without audio are skipped. */
  function CollectAudio(segments: seq<Segment>): (bufs: seq<AudioBuffer>)
    ensures |bufs| <= |segments|
  {
    if segments == [] then []
    else
      var last := segments[|segments| - 1];
      CollectAudio(segments[..|segments| - 1]) + (if last.audio.Some? then [last.audio.value] else [])
  }

  /** Concatenation of buffers in order (the tensor concatenation along the
      sample axis). It is empty exactly when every buffer is. */
  function Flatten(bufs: seq<AudioBuffer>): (r: AudioBuffer)
    ensures r == [] <==> forall i | 0 <= i < |bufs| :: bufs[i] == []
  {
    if bufs == [] then [] else Flatten(bufs[..|bufs| - 1]) + bufs[|bufs| - 1]
  }

  /** The sum of the lengths of the buffers. */
  function TotalLength(bufs: seq<AudioBuffer>): nat
  {
    if bufs == [] then 0 else TotalLength(bufs[..|bufs| - 1]) + |bufs[|bufs| - 1]|
  }

  /** Appending one segment adds its audio, if any, at the end. */
  lemma CollectAudioAppend(segments: seq<Segment>, s: Segment)
    ensures CollectAudio(segments + [s])
         == CollectAudio(segments) + (if s.audio.Some? then [s.audio.value] else [])
  {
    assert (segments + [s])[..|segments|] == segments;
  }

  /** A segment stream that is cut short collects a prefix of the audio the
      whole stream would have collected. */
  lemma {:induction false} CollectAudioPrefix(s: seq<Segment>, t: seq<Segment>)
    requires s <= t
    ensures CollectAudio(s) <= CollectAudio(t)
    decreases |t|
  {
    if s != t {
      var front := t[..|t| - 1];
      assert s <= front;
      CollectAudioPrefix(s, front);
    }
  }

  /** When every segment carries audio, nothing is skipped: the i-th buffer
      collected is the i-th segment's audio. */
  lemma {:induction false} CollectAudioAllPresent(segments: seq<Segment>)
    requires forall i | 0 <= i < |segments| :: segments[i].audio.Some?
    ensures |CollectAudio(segments)| == |segments|
    ensures forall i | 0 <= i < |segments| :: CollectAudio(segments)[i] == segments[i].audio.value
  {
    if segments != [] {
      CollectAudioAllPresent(segments[..|segments| - 1]);
    }
  }

  /** Concatenation distributes over sequence append. */
  lemma {:induction false} FlattenAppend(a: seq<AudioBuffer>, b: seq<AudioBuffer>)
    ensures Flatten(a + b) == Flatten(a) + Flatten(b)
    decreases |b|
  {
    if b == [] {
      assert a + b == a;
    } else {
      var front := b[..|b| - 1];
      assert (a + b)[..|a + b| - 1] == a + front;
      FlattenAppend(a, front);
    }
  }

  /** The concatenation is as long as the buffers together. */
  lemma {:induction false} FlattenLength(bufs: seq<AudioBuffer>)
    ensures |Flatten(bufs)| == TotalLength(bufs)
  {
    if bufs != [] {
      FlattenLength(bufs[..|bufs| - 1]);
    }
  }

  /** Concatenating a single buffer gives that buffer back unchanged. */
  lemma FlattenSingle(b: AudioBuffer)
    ensures Flatten([b]) == b
  {
    assert [b][..0] == [];
  }

  /** Concatenating a prefix of the buffers gives a prefix of the samples. */
  lemma FlattenPrefix(a: seq<AudioBuffer>, b: seq<AudioBuffer>)
    requires a <= b
    ensures Flatten(a) <= Flatten(b)
  {
    assert b == a + b[|a|..];
    FlattenAppend(a, b[|a|..]);
  }

  /** Order is preserved: the i-th buffer sits in the concatenation right
      after the samples of the buffers before it. */
  lemma FlattenPlacement(bufs: seq<AudioBuffer>, i: nat)
    requires i < |bufs|
    ensures var offset := TotalLength(bufs[..i]);
            offset + |bufs[i]| <= |Flatten(bufs)|
            && Flatten(bufs)[offset..offset + |bufs[i]|] == bufs[i]
  {
    assert bufs == bufs[..i] + [bufs[i]] + bufs[i + 1..];
    FlattenAppend(bufs[..i] + [bufs[i]], bufs[i + 1..]);
    FlattenAppend(bufs[..i], [bufs[i]]);
    FlattenSingle(bufs[i]);
    FlattenLength(bufs[..i]);
  }
}
