/** Voice-to-language routing of the web interface: a fixed prefix table picks
    a language code for a voice name, and a registry builds one pipeline per
    language code on first use and hands the same one back afterwards. */
module VoiceRouter {
  import opened Wrappers

  /** Voice-name prefix (first three characters, lower-cased) to language code. */
  const LANG_MAP: map<string, string> := map[
    "af_" := "a", "am_" := "a",
    "bf_" := "b", "bm_" := "b",
    "jf_" := "j", "jm_" := "j",
    "zf_" := "z", "zm_" := "z",
    "ef_" := "e", "em_" := "e",
    "ff_" := "f",
    "hf_" := "h", "hm_" := "h",
    "if_" := "i", "im_" := "i",
    "pf_" := "p", "pm_" := "p"
  ]

  /** The code used when the prefix is not in the table (American English). */
  const DEFAULT_LANG_CODE: string := "a"

  /** The curated voice list the interface offers. */
  const CURATED_VOICES: seq<string> := [
    "af_heart", "af_alloy", "af_aoede", "af_bella", "am_adam",
    "bf_alice", "bf_emma", "bm_daniel", "bm_george",
    "jf_alpha", "jm_kumo", "zf_xiaobei", "zm_yunjian",
    "ef_dora", "em_alex", "ff_siwis", "hf_alpha", "hm_omega",
    "if_sara", "im_nicola", "pf_dora", "pm_santa"
  ]

  /** Lower-casing of one character; only ASCII letters are mapped. */
  function LowerChar(c: char): char
  {
    if 'A' <= c <= 'Z' then (c as int + 32) as char else c
  }

  /** Lower-casing of a string, character by character. */
  function Lower(s: string): string
  {
    seq(|s|, i requires 0 <= i < |s| => LowerChar(s[i]))
  }

  /** Slicing `s[:3]`: the first three characters, or all of a shorter string. */
  function Prefix3(s: string): string
  {
    if |s| <= 3 then s else s[..3]
  }

  /** The language code chosen for a voice name: the table entry for its
      lower-cased three-character prefix, or the default code. */
  function LangCode(voice: string): (code: string)
    ensures |code| == 1
    ensures code in LANG_MAP.Values || code == DEFAULT_LANG_CODE
  {
    var key := Lower(Prefix3(voice));
    if key in LANG_MAP then LANG_MAP[key] else DEFAULT_LANG_CODE
  }

  /** Whether a voice name's prefix is in the table (no fallback taken). */
  predicate Recognised(voice: string)
  {
    Lower(Prefix3(voice)) in LANG_MAP
  }

  /** Every key of the table is three characters ending in an underscore, and
      its language code is the key's first character. */
  lemma LangMapShape()
    ensures forall key | key in LANG_MAP :: |key| == 3 && key[2] == '_' && LANG_MAP[key] == key[..1]
  {
  }

  /** A name shorter than three characters can never match a three-character
      key, so it always takes the fallback code. */
  lemma ShortNameFallsBack(voice: string)
    requires |voice| < 3
    ensures !Recognised(voice)
    ensures LangCode(voice) == DEFAULT_LANG_CODE
  {
    LangMapShape();
    assert |Lower(Prefix3(voice))| < 3;
  }

  /** One entry of the table, with the facts of `LangMapShape` about it. */
  lemma LangMapEntry(key: string)
    requires key in LANG_MAP
    ensures |key| == 3 && LANG_MAP[key] == [key[0]]
  {
    LangMapShape();
  }

  /** For a recognised name the language code is its lower-cased first letter. */
  lemma RecognisedCodeIsFirstLetter(voice: string)
    requires Recognised(voice)
    ensures |voice| >= 3
    ensures LangCode(voice) == [LowerChar(voice[0])]
  {
    var key := Lower(Prefix3(voice));
    LangMapEntry(key);
    assert key[0] == LowerChar(Prefix3(voice)[0]);
  }

  /** The lookup ignores case: an upper-case spelling of a voice name routes to
      the same language as its lower-case spelling. */
  lemma LangCodeIgnoresCase(voice: string)
    ensures Recognised(Lower(voice)) == Recognised(voice)
    ensures LangCode(Lower(voice)) == LangCode(voice)
  {
    assert Lower(Prefix3(Lower(voice))) == Lower(Prefix3(voice));
  }

  /** A string without upper-case ASCII letters is its own lower-casing. */
  lemma LowerUnchanged(s: string)
    requires forall i | 0 <= i < |s| :: !('A' <= s[i] <= 'Z')
    ensures Lower(s) == s
  {
  }

  /** No voice of the curated list takes the fallback: each one's prefix is in
      the table and its language code is its own first letter. */
  lemma CuratedVoicesRecognised()
    ensures forall v | v in CURATED_VOICES :: Recognised(v) && LangCode(v) == v[..1]
  {
    forall v | v in CURATED_VOICES
      ensures Recognised(v) && LangCode(v) == v[..1]
    {
      var prefix := [v[0], v[1], v[2]];
      assert Prefix3(v) == prefix;
      assert prefix in LANG_MAP;
      LowerUnchanged(prefix);
      RecognisedCodeIsFirstLetter(v);
    }
  }

  /** An opaque handle to a loaded speech model. */
  type ModelHandle = nat

  /** Which model a pipeline runs: the shared global one, or one it loads. */
  datatype ModelSource = SharedModel(handle: ModelHandle) | OwnModel

  /** A speech pipeline for one language. `serial` numbers the constructions,
      so two pipelines built at different times are different values. */
  datatype Pipeline = Pipeline(langCode: string, model: ModelSource, serial: nat)

  /** The registry of pipelines, one per language code. */
  class PipelineRegistry {
    /** language code -> pipeline */
    var pipelines: map<string, Pipeline>
    /** how many pipelines have been constructed so far */
    var constructed: nat
    /** the model shared by all pipelines, when one was pre-loaded */
    var globalModel: Option<ModelHandle>

    /** Each entry is the pipeline for its own code, and there have been
        exactly as many constructions as there are codes, each with its own
        serial: no code was ever constructed twice. */
    ghost predicate Valid()
      reads this
    {
      && |pipelines| == constructed
      && (forall code | code in pipelines ::
            pipelines[code].langCode == code && pipelines[code].serial < constructed)
      && (forall c1, c2 | c1 in pipelines && c2 in pipelines && c1 != c2 ::
            pipelines[c1].serial != pipelines[c2].serial)
    }

    constructor (globalModel: Option<ModelHandle>)
      ensures Valid()
      ensures pipelines == map[] && constructed == 0
      ensures this.globalModel == globalModel
    {
      pipelines := map[];
      constructed := 0;
      this.globalModel := globalModel;
    }

    /** Returns the pipeline for the voice's language code, constructing it
        (on the shared model when there is one) only if the code has none. */
    method GetPipelineForVoice(voice: string) returns (p: Pipeline)
      requires Valid()
      modifies this
      ensures Valid()
      ensures globalModel == old(globalModel)
      ensures LangCode(voice) in pipelines && p == pipelines[LangCode(voice)]
      ensures p.langCode == LangCode(voice)
      ensures LangCode(voice) in old(pipelines) ==>
                p == old(pipelines)[LangCode(voice)]
                && pipelines == old(pipelines) && constructed == old(constructed)
      ensures LangCode(voice) !in old(pipelines) ==>
                && p.model == (if globalModel.Some? then SharedModel(globalModel.value) else OwnModel)
                && p.serial == old(constructed)
                && pipelines == old(pipelines)[LangCode(voice) := p]
                && constructed == old(constructed) + 1
    {
      var langCode := LangCode(voice);
      if langCode !in pipelines {
        var model := if globalModel.Some? then SharedModel(globalModel.value) else OwnModel;
        pipelines := pipelines[langCode := Pipeline(langCode, model, constructed)];
        constructed := constructed + 1;
      }
      p := pipelines[langCode];
    }
  }
}
