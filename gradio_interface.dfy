/** The request path of the web interface: choose the pipeline, collect the
    segments' audio, write a timestamped .wav file and, for mp3 or aac,
    transcode it. File I/O outcomes are given as inputs. */
module GradioInterface {
  import opened Wrappers
  import opened Audio
  import opened VoiceRouter

  const DEFAULT_OUTPUT_DIR: string := "outputs"

  /** The formats that are transcoded from the .wav file at 192 kbit/s. */
  const TRANSCODED_FORMATS: set<string> := {"mp3", "aac"}

  /** `os.path.join(DEFAULT_OUTPUT_DIR, name)` with the POSIX separator. */
  function OutputFile(name: string): string
  {
    DEFAULT_OUTPUT_DIR + "/" + name
  }

  /** The timestamped base name of a request's files. */
  function BaseName(voice: string, timestamp: string): string
  {
    "tts_" + voice + "_" + timestamp
  }

  /** The .wav file every successful request writes first: in the output
      directory, named after the voice and the timestamp, ending in ".wav". */
  function WavPath(voice: string, timestamp: string): (p: string)
    ensures DEFAULT_OUTPUT_DIR + "/tts_" + voice + "_" + timestamp <= p
    ensures |p| >= 4 && p[|p| - 4..] == ".wav"
  {
    OutputFile(BaseName(voice, timestamp) + ".wav")
  }

  /** The file a request for format `fmt` converts to: the .wav file's name
      with the format as its extension. */
  function FormatPath(voice: string, timestamp: string, fmt: string): (p: string)
    ensures DEFAULT_OUTPUT_DIR + "/tts_" + voice + "_" + timestamp <= p
    ensures |p| > |fmt| && p[|p| - |fmt| - 1..] == "." + fmt
    ensures fmt == "wav" ==> p == WavPath(voice, timestamp)
  {
    OutputFile(BaseName(voice, timestamp) + "." + fmt)
  }

  /** Converting the .wav file at `inputPath`: nothing to do for "wav";
      otherwise the .wav file is decoded first (`decodeOk`), then mp3 and aac
      are exported to `outputPath` (`exportOk`) and any other format is left
      as the .wav file. `None` stands for the exception a failed decode or
      export raises. */
  function ConvertAudio(inputPath: string, outputPath: string, fmt: string, decodeOk: bool, exportOk: bool)
    : (r: Option<string>)
    ensures r.None? <==> fmt != "wav" && (!decodeOk || (fmt in TRANSCODED_FORMATS && !exportOk))
    ensures r.Some? ==> r.value == (if fmt in TRANSCODED_FORMATS then outputPath else inputPath)
  {
    if fmt == "wav" then Some(inputPath)
    else if !decodeOk then None
    else if fmt == "mp3" || fmt == "aac" then (if exportOk then Some(outputPath) else None)
    else Some(inputPath)
  }

  /** An unrecognised format is not an error: once the .wav file decodes, the
      .wav path itself comes back. */
  lemma UnrecognisedFormatKeepsWav(inputPath: string, outputPath: string, fmt: string, exportOk: bool)
    requires fmt != "wav" && fmt !in TRANSCODED_FORMATS
    ensures ConvertAudio(inputPath, outputPath, fmt, true, exportOk) == Some(inputPath)
  {
  }

  /** The path a request returns once its .wav file is written: the .wav path
      for "wav", otherwise whatever converting to the format's path gives. */
  function ResultPath(voice: string, timestamp: string, fmt: string, decodeOk: bool, exportOk: bool)
    : (r: Option<string>)
    ensures fmt == "wav" ==> r == Some(WavPath(voice, timestamp))
    ensures r.Some? && fmt in TRANSCODED_FORMATS ==> r.value == FormatPath(voice, timestamp, fmt)
    ensures r.Some? && fmt !in TRANSCODED_FORMATS ==> r.value == WavPath(voice, timestamp)
  {
    if fmt != "wav" then
      ConvertAudio(WavPath(voice, timestamp), FormatPath(voice, timestamp, fmt), fmt, decodeOk, exportOk)
    else
      Some(WavPath(voice, timestamp))
  }

  /** A returned path lies in the output directory, names the voice and the
      timestamp, and carries the extension of the audio actually produced:
      that of a transcoded format, and .wav for every other format. */
  lemma ResultPathShape(voice: string, timestamp: string, fmt: string, decodeOk: bool, exportOk: bool)
    requires ResultPath(voice, timestamp, fmt, decodeOk, exportOk).Some?
    ensures var path := ResultPath(voice, timestamp, fmt, decodeOk, exportOk).value;
            var stem := DEFAULT_OUTPUT_DIR + "/tts_" + voice + "_" + timestamp + ".";
            && stem <= path
            && path[|stem|..] == (if fmt in TRANSCODED_FORMATS then fmt else "wav")
  {
    var path := ResultPath(voice, timestamp, fmt, decodeOk, exportOk).value;
    var stem := DEFAULT_OUTPUT_DIR + "/tts_" + voice + "_" + timestamp + ".";
    if fmt !in TRANSCODED_FORMATS {
      assert path == stem + "wav";
    } else {
      assert path == stem + fmt;
    }
  }

  /** Handles one request. `makedirsOk`, `writeOk`, `decodeOk` and `exportOk`
      are the outcomes of creating the output directory, writing the .wav file,
      decoding it and exporting it; `stream` is what the pipeline yields.
      Every failure is caught and turned into the empty path. `wav` is the
      content of the .wav file the request leaves behind, if any. */
  method GenerateTtsWithLogs(
    reg: PipelineRegistry, voice: string, text: string, fmt: string, timestamp: string,
    makedirsOk: bool, stream: Stream, writeOk: bool, decodeOk: bool, exportOk: bool)
    returns (path: string, wav: Option<AudioBuffer>)
    requires reg.Valid()
    modifies reg
    ensures reg.Valid() && reg.globalModel == old(reg.globalModel)
    ensures !makedirsOk ==> reg.pipelines == old(reg.pipelines) && reg.constructed == old(reg.constructed)
    ensures makedirsOk ==>
              && LangCode(voice) in reg.pipelines
              && (LangCode(voice) in old(reg.pipelines) ==>
                    reg.pipelines == old(reg.pipelines) && reg.constructed == old(reg.constructed))
              && (LangCode(voice) !in old(reg.pipelines) ==>
                    var model := if reg.globalModel.Some? then SharedModel(reg.globalModel.value) else OwnModel;
                    reg.pipelines == old(reg.pipelines)[LangCode(voice) := Pipeline(LangCode(voice), model, old(reg.constructed))]
                    && reg.constructed == old(reg.constructed) + 1)
    ensures wav == (if makedirsOk && !stream.raises && CollectAudio(stream.segments) != [] && writeOk
                    then Some(Flatten(CollectAudio(stream.segments))) else None)
    ensures path == (if wav.Some? then ResultPath(voice, timestamp, fmt, decodeOk, exportOk).GetOr("") else "")
  {
    if !makedirsOk {
      return "", None;
    }
    var pipeline := reg.GetPipelineForVoice(voice);
    var wavPath := WavPath(voice, timestamp);

    var allAudio: seq<AudioBuffer> := [];
    var i := 0;
    while i < |stream.segments|
      invariant 0 <= i <= |stream.segments|
      invariant allAudio == CollectAudio(stream.segments[..i])
      modifies {}
    {
      var segment := stream.segments[i];
      CollectAudioAppend(stream.segments[..i], segment);
      assert stream.segments[..i + 1] == stream.segments[..i] + [segment];
      if segment.audio.Some? {
        allAudio := allAudio + [segment.audio.value];
      }
      i := i + 1;
    }
    assert stream.segments[..i] == stream.segments;

    if stream.raises || allAudio == [] {
      return "", None;
    }
    var finalAudio := Flatten(allAudio);
    if !writeOk {
      return "", None;
    }
    wav := Some(finalAudio);
    if fmt != "wav" {
      var outFile := FormatPath(voice, timestamp, fmt);
      var converted := ConvertAudio(wavPath, outFile, fmt, decodeOk, exportOk);
      path := converted.GetOr("");
      return;
    }
    path := wavPath;
  }
}
