/** The menu loop of the command-line demo: list the voices, generate speech,
    or exit. The voice list is fetched lazily and cached between choices. */
module DemoSession {
  import opened Wrappers
  import opened Audio
  import opened DemoInput
  import opened DemoGeneration

  /** Everything a "generate speech" choice reads or observes: the answers to
      the three prompts (`None` for the text prompt when input ends there),
      whether the selected voice's file exists, what the engine yields (`None`
      when building the generator raises), the clock reading at the start,
      and the outcome of each file write. */
  datatype SpeechRequest = SpeechRequest(
    voiceEntries: seq<VoiceEntry>,
    textAnswer: Option<string>,
    speedEntries: seq<SpeedEntry>,
    voiceFileExists: bool,
    stream: Option<TimedStream>,
    start: real,
    writeOk: nat -> bool)

  /** How a "generate speech" choice ends. `InputEnded` is the end of input in
      one of the prompts, which ends the whole session. */
  datatype RequestOutcome =
    | InputEnded
    | TextRejected
    | Synthesized(voice: string, text: string, speed: real, result: GenerationResult)

  /** The outcome a request must have: prompts in the order voice, text,
      speed; the end of input in any prompt ends the request where it
      happens, and the length check comes after the text prompt and before
      the speed prompt and the generator. */
  ghost function ExpectedRequest(voices: seq<string>, req: SpeechRequest): RequestOutcome
  {
    match SelectedVoice(voices, req.voiceEntries)
    case None => InputEnded
    case Some(voice) =>
      match req.textAnswer
      case None => InputEnded
      case Some(answer) =>
        var text := TextOrDefault(answer);
        if TextTooLong(text) then TextRejected
        else
          match SelectedSpeed(req.speedEntries)
          case None => InputEnded
          case Some(speed) =>
            Synthesized(voice, text, speed,
                        ExpectedGeneration(req.voiceFileExists, req.stream, req.start, req.writeOk))
  }

  /** Runs the prompts and, when they complete and the text is short enough,
      the generation. */
  method RequestSpeech(voices: seq<string>, req: SpeechRequest) returns (outcome: RequestOutcome)
    ensures outcome == ExpectedRequest(voices, req)
  {
    var voice, _ := SelectVoice(voices, req.voiceEntries);
    if voice.None? {
      return InputEnded;
    }
    if req.textAnswer.None? {
      return InputEnded;
    }
    var text := TextOrDefault(req.textAnswer.value);
    if TextTooLong(text) {
      return TextRejected;
    }
    var speed, _ := GetSpeed(req.speedEntries);
    if speed.None? {
      return InputEnded;
    }
    var result := GenerateSpeech(req.voiceFileExists, req.stream, req.start, req.writeOk);
    outcome := Synthesized(voice.value, text, speed.value, result);
  }

  /** A request that reaches generation has a text of at most
      MAX_TEXT_LENGTH characters, a speed in range and a voice that is the
      default or a listed one; a text one character longer is rejected
      before the generator is built, and the end of input at the text prompt
      ends the request before any check. */
  lemma SynthesizedRequestsAreValid(voices: seq<string>, req: SpeechRequest)
    ensures var r := ExpectedRequest(voices, req);
            r.Synthesized? ==>
              && |r.text| <= MAX_TEXT_LENGTH
              && MIN_SPEED <= r.speed <= MAX_SPEED
              && (r.voice == DEFAULT_VOICE || r.voice in voices)
    ensures SelectedVoice(voices, req.voiceEntries).Some? && req.textAnswer.Some?
            && |TextOrDefault(req.textAnswer.value)| > MAX_TEXT_LENGTH
            ==> ExpectedRequest(voices, req) == TextRejected
    ensures req.textAnswer.None? ==> ExpectedRequest(voices, req) == InputEnded
  {
  }

  /** What one pass of the menu loop did. */
  datatype Step =
    | Listed(voices: seq<string>)
    | NoVoices
    | Requested(outcome: RequestOutcome)
    | Exit
    | Invalid

  /** Whether the session ends after this step: the exit choice, or the end
      of input inside a prompt. */
  predicate Ends(step: Step)
  {
    step.Exit? || (step.Requested? && step.outcome.InputEnded?)
  }

  /** One menu answer and, for "2", the request that follows it. */
  datatype MenuInput = MenuInput(choice: string, request: SpeechRequest)

  /** How many of the answers choose "1". */
  function CountListChoices(inputs: seq<MenuInput>): nat
  {
    if inputs == [] then 0
    else (if inputs[0].choice == "1" then 1 else 0) + CountListChoices(inputs[1..])
  }

  /** Whether the first answer that touches the voice list ("1" or "2") is a
      "2", the only choice that fetches lazily. */
  predicate FirstFetchIsRequest(inputs: seq<MenuInput>)
  {
    if inputs == [] || inputs[0].choice == "1" then false
    else if inputs[0].choice == "2" then true
    else FirstFetchIsRequest(inputs[1..])
  }

  /** What the menu loop carries from one choice to the next: the cached
      voice list and how often the voice list was fetched. */
  datatype MenuState = MenuState(cache: Option<seq<string>>, fetches: nat)

  /** One pass of the menu loop. `fetch(k)` is what the k-th fetch of the
      voice list (from 0) returns. */
  ghost function ExpectedChoice(state: MenuState, input: MenuInput, fetch: nat -> seq<string>): (Step, MenuState)
  {
    if input.choice == "1" then
      var voices := fetch(state.fetches);
      (Listed(voices), MenuState(Some(voices), state.fetches + 1))
    else if input.choice == "2" then
      var next := if state.cache.None? then MenuState(Some(fetch(state.fetches)), state.fetches + 1) else state;
      var voices := next.cache.value;
      (if voices == [] then NoVoices else Requested(ExpectedRequest(voices, input.request)), next)
    else if input.choice == "3" then (Exit, state)
    else (Invalid, state)
  }

  /** The menu loop over a sequence of answers: one step per answer up to
      and including the first step that ends the session, and the state it
      leaves behind. */
  ghost function ExpectedRun(state: MenuState, inputs: seq<MenuInput>, fetch: nat -> seq<string>)
    : (seq<Step>, MenuState)
    decreases |inputs|
  {
    if inputs == [] then ([], state)
    else
      var (step, next) := ExpectedChoice(state, inputs[0], fetch);
      if Ends(step) then ([step], next)
      else
        var (rest, final) := ExpectedRun(next, inputs[1..], fetch);
        ([step] + rest, final)
  }

  /** The loop takes one step per answer, stops right after the first step
      that ends the session and otherwise goes on until the answers run out;
      an exit as the first answer is the only step. */
  lemma {:induction false} RunStopsAtFirstEnd(state: MenuState, inputs: seq<MenuInput>, fetch: nat -> seq<string>)
    ensures var steps := ExpectedRun(state, inputs, fetch).0;
            && |steps| <= |inputs|
            && (forall i | 0 <= i < |steps| - 1 :: !Ends(steps[i]))
            && (|steps| < |inputs| ==> steps != [] && Ends(steps[|steps| - 1]))
            && (inputs != [] ==> steps != [] && steps[0] == ExpectedChoice(state, inputs[0], fetch).0)
    ensures inputs != [] && inputs[0].choice == "3" ==> ExpectedRun(state, inputs, fetch) == ([Exit], state)
    decreases |inputs|
  {
    if inputs != [] {
      var (step, next) := ExpectedChoice(state, inputs[0], fetch);
      if !Ends(step) {
        RunStopsAtFirstEnd(next, inputs[1..], fetch);
        var rest := ExpectedRun(next, inputs[1..], fetch).0;
        var steps := [step] + rest;
        forall i | 0 <= i < |steps| - 1 ensures !Ends(steps[i]) {
          if i > 0 { assert steps[i] == rest[i - 1]; }
        }
      }
    }
  }

  /** The voice list is fetched once for every "1" the loop handles, and once
      more when no list was cached and a "2" comes before any "1". */
  lemma {:induction false} RunFetchCount(state: MenuState, inputs: seq<MenuInput>, fetch: nat -> seq<string>)
    ensures var (steps, final) := ExpectedRun(state, inputs, fetch);
            |steps| <= |inputs|
            && final.fetches == state.fetches + CountListChoices(inputs[..|steps|])
                                + (if state.cache.None? && FirstFetchIsRequest(inputs[..|steps|]) then 1 else 0)
    decreases |inputs|
  {
    RunStopsAtFirstEnd(state, inputs, fetch);
    if inputs != [] {
      var (step, next) := ExpectedChoice(state, inputs[0], fetch);
      var (steps, final) := ExpectedRun(state, inputs, fetch);
      if Ends(step) {
        assert inputs[..1] == [inputs[0]];
        assert inputs[..1][1..] == [];
      } else {
        RunFetchCount(next, inputs[1..], fetch);
        var n := |steps|;
        assert inputs[..n][1..] == inputs[1..][..n - 1];
      }
    }
  }

  /** The cache always holds the list the latest fetch returned: it is
      unchanged when nothing was fetched, and a filled cache stays filled. */
  lemma {:induction false} RunCacheIsLatestFetch(state: MenuState, inputs: seq<MenuInput>, fetch: nat -> seq<string>)
    ensures var final := ExpectedRun(state, inputs, fetch).1;
            && state.fetches <= final.fetches
            && (final.fetches == state.fetches ==> final.cache == state.cache)
            && (final.fetches > state.fetches ==> final.cache == Some(fetch(final.fetches - 1)))
            && (state.cache.Some? ==> final.cache.Some?)
    decreases |inputs|
  {
    if inputs != [] {
      var (step, next) := ExpectedChoice(state, inputs[0], fetch);
      if !Ends(step) {
        RunCacheIsLatestFetch(next, inputs[1..], fetch);
      }
    }
  }

  /** The state of the menu loop: the cached voice list and how often the
      voice list was fetched. */
  class Session {
    var voicesCache: Option<seq<string>>
    var listCalls: nat

    constructor ()
      ensures voicesCache == None && listCalls == 0
    {
      voicesCache := None;
      listCalls := 0;
    }

    function State(): MenuState
      reads this
    {
      MenuState(voicesCache, listCalls)
    }

    /** One pass of the menu loop; `fetch(k)` is what the k-th fetch of the
        voice list returns. "1" always refetches the list; "2" fetches it only
        when it has never been fetched, and an empty list ends the choice. */
    method HandleChoice(input: MenuInput, fetch: nat -> seq<string>) returns (step: Step)
      modifies this
      ensures (step, State()) == ExpectedChoice(old(State()), input, fetch)
      ensures input.choice == "1" ==>
                var voices := fetch(old(listCalls));
                voicesCache == Some(voices) && listCalls == old(listCalls) + 1 && step == Listed(voices)
      ensures input.choice == "2" ==>
                && voicesCache == (if old(voicesCache).None? then Some(fetch(old(listCalls))) else old(voicesCache))
                && listCalls == old(listCalls) + (if old(voicesCache).None? then 1 else 0)
                && step == (if voicesCache.value == [] then NoVoices
                            else Requested(ExpectedRequest(voicesCache.value, input.request)))
      ensures input.choice == "3" ==> step == Exit
      ensures input.choice !in {"1", "2", "3"} ==> step == Invalid
      ensures input.choice != "1" && input.choice != "2" ==> unchanged(this)
    {
      if input.choice == "1" {
        voicesCache := Some(fetch(listCalls));
        listCalls := listCalls + 1;
        step := Listed(voicesCache.value);
      } else if input.choice == "2" {
        if voicesCache.None? {
          voicesCache := Some(fetch(listCalls));
          listCalls := listCalls + 1;
        }
        var voices := voicesCache.value;
        if voices == [] {
          return NoVoices;
        }
        var outcome := RequestSpeech(voices, input.request);
        step := Requested(outcome);
      } else if input.choice == "3" {
        step := Exit;
      } else {
        step := Invalid;
      }
    }

    /** The menu loop over a sequence of answers: the steps taken and the
        state left behind are those of `ExpectedRun`. */
    method Run(inputs: seq<MenuInput>, fetch: nat -> seq<string>) returns (steps: seq<Step>)
      modifies this
      ensures (steps, State()) == ExpectedRun(old(State()), inputs, fetch)
    {
      steps := [];
      var i := 0;
      assert inputs[i..] == inputs;
      assert steps + ExpectedRun(State(), inputs, fetch).0 == ExpectedRun(State(), inputs, fetch).0;
      while i < |inputs|
        invariant 0 <= i <= |inputs|
        invariant ExpectedRun(old(State()), inputs, fetch)
                  == (steps + ExpectedRun(State(), inputs[i..], fetch).0, ExpectedRun(State(), inputs[i..], fetch).1)
      {
        var step := HandleChoice(inputs[i], fetch);
        assert inputs[i..][0] == inputs[i] && inputs[i..][1..] == inputs[i + 1..];
        if Ends(step) {
          steps := steps + [step];
          return;
        }
        assert steps + [step] + ExpectedRun(State(), inputs[i + 1..], fetch).0
            == steps + ([step] + ExpectedRun(State(), inputs[i + 1..], fetch).0);
        steps := steps + [step];
        i := i + 1;
      }
      assert steps + [] == steps;
    }
  }
}
