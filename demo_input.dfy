/** The prompts of the command-line demo: voice selection, text input and
    speed input. Each prompt reads answers until one is acceptable; the answers
    are given already stripped and parsed, and running out of answers stands
    for the end of input. */
module DemoInput {
  import opened Wrappers

  const DEFAULT_VOICE: string := "af_bella"
  const DEFAULT_TEXT: string := "Hello, welcome to this text-to-speech test."
  const MAX_TEXT_LENGTH: nat := 10000
  const MIN_SPEED: real := 0.5
  const MAX_SPEED: real := 2.0
  const DEFAULT_SPEED: real := 1.0

  /** One answer to the voice prompt: empty, not an integer, or an integer. */
  datatype VoiceEntry = BlankVoice | NotANumber | VoiceNumber(k: int)

  /** An answer ends the voice prompt when it is empty or a 1-based index
      into the list. */
  predicate AcceptsVoice(e: VoiceEntry, count: nat)
  {
    e.BlankVoice? || (e.VoiceNumber? && 1 <= e.k <= count)
  }

  /** The voice an accepted answer picks: the default for an empty answer,
      otherwise the listed voice at that 1-based position. */
  function ChosenVoice(voices: seq<string>, e: VoiceEntry): (v: string)
    requires AcceptsVoice(e, |voices|)
    ensures e.BlankVoice? ==> v == DEFAULT_VOICE
    ensures e.VoiceNumber? ==> v in voices
  {
    if e.BlankVoice? then DEFAULT_VOICE else voices[e.k - 1]
  }

  /** The voice the prompt settles on: the choice of the first accepted
      answer, or `None` when the answers run out first. */
  function SelectedVoice(voices: seq<string>, entries: seq<VoiceEntry>): (r: Option<string>)
    ensures r.Some? ==> r.value == DEFAULT_VOICE || r.value in voices
  {
    if entries == [] then None
    else if AcceptsVoice(entries[0], |voices|) then Some(ChosenVoice(voices, entries[0]))
    else SelectedVoice(voices, entries[1..])
  }

  /** `SelectedVoice` is decided by the first accepted answer, and is `None`
      exactly when no answer is accepted. */
  lemma {:induction false} SelectedVoiceIsFirstAccepted(voices: seq<string>, entries: seq<VoiceEntry>)
    ensures SelectedVoice(voices, entries).None? <==>
              forall i | 0 <= i < |entries| :: !AcceptsVoice(entries[i], |voices|)
    ensures forall i | 0 <= i < |entries| && AcceptsVoice(entries[i], |voices|)
                         && (forall j | 0 <= j < i :: !AcceptsVoice(entries[j], |voices|)) ::
              SelectedVoice(voices, entries) == Some(ChosenVoice(voices, entries[i]))
  {
    if entries != [] && !AcceptsVoice(entries[0], |voices|) {
      var rest := entries[1..];
      SelectedVoiceIsFirstAccepted(voices, rest);
      forall i | 0 <= i < |entries| && AcceptsVoice(entries[i], |voices|)
                 && (forall j | 0 <= j < i :: !AcceptsVoice(entries[j], |voices|))
        ensures SelectedVoice(voices, entries) == Some(ChosenVoice(voices, entries[i]))
      {
        assert i > 0 && rest[i - 1] == entries[i];
        forall j | 0 <= j < i - 1 ensures !AcceptsVoice(rest[j], |voices|) {
          assert rest[j] == entries[j + 1];
        }
      }
      if forall i | 0 <= i < |rest| :: !AcceptsVoice(rest[i], |voices|) {
        forall i | 0 <= i < |entries| ensures !AcceptsVoice(entries[i], |voices|) {
          if i > 0 { assert entries[i] == rest[i - 1]; }
        }
      }
    }
  }

  /** The voice prompt: reads answers until one is accepted. `used` is how
      many answers it read. */
  method SelectVoice(voices: seq<string>, entries: seq<VoiceEntry>) returns (choice: Option<string>, used: nat)
    ensures choice == SelectedVoice(voices, entries)
    ensures used <= |entries|
    ensures choice.Some? ==> 0 < used && AcceptsVoice(entries[used - 1], |voices|)
    ensures choice.None? ==> used == |entries|
    ensures forall j | 0 <= j < used && (choice.None? || j < used - 1) :: !AcceptsVoice(entries[j], |voices|)
  {
    var i := 0;
    while i < |entries|
      invariant 0 <= i <= |entries|
      invariant SelectedVoice(voices, entries) == SelectedVoice(voices, entries[i..])
      invariant forall j | 0 <= j < i :: !AcceptsVoice(entries[j], |voices|)
    {
      var e := entries[i];
      if e.BlankVoice? {
        return Some(DEFAULT_VOICE), i + 1;
      }
      if e.VoiceNumber? && 1 <= e.k <= |voices| {
        return Some(voices[e.k - 1]), i + 1;
      }
      assert entries[i..][1..] == entries[i + 1..];
      i := i + 1;
    }
    return None, |entries|;
  }

  /** One answer to the speed prompt: empty, not a number, or a number. */
  datatype SpeedEntry = BlankSpeed | NotAFloat | SpeedValue(s: real)

  /** An answer ends the speed prompt when it is empty or a number in
      [MIN_SPEED, MAX_SPEED], bounds included. */
  predicate AcceptsSpeed(e: SpeedEntry)
  {
    e.BlankSpeed? || (e.SpeedValue? && MIN_SPEED <= e.s <= MAX_SPEED)
  }

  /** The speed the prompt settles on: that of the first accepted answer
      (the default for an empty one), or `None` when the answers run out. */
  function SelectedSpeed(entries: seq<SpeedEntry>): (r: Option<real>)
    ensures r.Some? ==> MIN_SPEED <= r.value <= MAX_SPEED
  {
    if entries == [] then None
    else if AcceptsSpeed(entries[0]) then
      Some(if entries[0].BlankSpeed? then DEFAULT_SPEED else entries[0].s)
    else SelectedSpeed(entries[1..])
  }

  /** A speed comes back exactly when some answer is acceptable, and it is
      the one of the first such answer. */
  lemma {:induction false} SelectedSpeedIsFirstAccepted(entries: seq<SpeedEntry>)
    ensures SelectedSpeed(entries).None? <==> forall i | 0 <= i < |entries| :: !AcceptsSpeed(entries[i])
    ensures forall i | 0 <= i < |entries| && AcceptsSpeed(entries[i])
                         && (forall j | 0 <= j < i :: !AcceptsSpeed(entries[j])) ::
              SelectedSpeed(entries)
              == Some(if entries[i].BlankSpeed? then DEFAULT_SPEED else entries[i].s)
  {
    if entries != [] && !AcceptsSpeed(entries[0]) {
      var rest := entries[1..];
      SelectedSpeedIsFirstAccepted(rest);
      forall i | 0 <= i < |entries| && AcceptsSpeed(entries[i])
                 && (forall j | 0 <= j < i :: !AcceptsSpeed(entries[j]))
        ensures SelectedSpeed(entries)
                == Some(if entries[i].BlankSpeed? then DEFAULT_SPEED else entries[i].s)
      {
        assert i > 0 && rest[i - 1] == entries[i];
        forall j | 0 <= j < i - 1 ensures !AcceptsSpeed(rest[j]) {
          assert rest[j] == entries[j + 1];
        }
      }
      if forall i | 0 <= i < |rest| :: !AcceptsSpeed(rest[i]) {
        forall i | 0 <= i < |entries| ensures !AcceptsSpeed(entries[i]) {
          if i > 0 { assert entries[i] == rest[i - 1]; }
        }
      }
    }
  }

  /** The speed prompt: reads answers until one is accepted. */
  method GetSpeed(entries: seq<SpeedEntry>) returns (speed: Option<real>, used: nat)
    ensures speed == SelectedSpeed(entries)
    ensures used <= |entries|
    ensures speed.Some? ==> 0 < used && AcceptsSpeed(entries[used - 1])
    ensures speed.None? ==> used == |entries|
    ensures forall j | 0 <= j < used && (speed.None? || j < used - 1) :: !AcceptsSpeed(entries[j])
  {
    var i := 0;
    while i < |entries|
      invariant 0 <= i <= |entries|
      invariant SelectedSpeed(entries) == SelectedSpeed(entries[i..])
      invariant forall j | 0 <= j < i :: !AcceptsSpeed(entries[j])
    {
      var e := entries[i];
      if e.BlankSpeed? {
        return Some(DEFAULT_SPEED), i + 1;
      }
      if e.SpeedValue? && MIN_SPEED <= e.s <= MAX_SPEED {
        return Some(e.s), i + 1;
      }
      assert entries[i..][1..] == entries[i + 1..];
      i := i + 1;
    }
    return None, |entries|;
  }

  /** The text to speak: the (stripped) answer, or the default text when the
      answer is empty. Never empty. */
  function TextOrDefault(answer: string): (text: string)
    ensures text != []
    ensures answer != [] ==> text == answer
  {
    if answer == [] then DEFAULT_TEXT else answer
  }

  /** The length check made before any generator is built: only texts longer
      than MAX_TEXT_LENGTH characters are refused, so an empty answer, which
      becomes the default text, never is. */
  predicate TextTooLong(text: string): (tooLong: bool)
    ensures tooLong ==> text != [] && text != DEFAULT_TEXT
  {
    |text| > MAX_TEXT_LENGTH
  }

  /** The default text passes the length check. */
  lemma DefaultTextAccepted()
    ensures !TextTooLong(TextOrDefault([]))
  {
  }
}
