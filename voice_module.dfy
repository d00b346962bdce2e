/**
 * The per-turn building blocks of the voice session: speech-to-text with its
 * out-of-memory retry, the emotion-recognition client, the history digest and
 * the directive prompt. Each collaborator (Whisper, the SER endpoint, the
 * language-model backend, the microphone) is a parameter given as the outcome
 * it produces.
 */
module Voice {
  import opened Wrappers
  import opened Http
  import opened PyStr
  import Config
  import Llm

  /** A recorded clip; its samples are never inspected. */
  datatype Audio = Recording(id: nat)

  /** One entry `{"role": role, "content": content}` of the conversation history. */
  datatype Turn = Turn(role: string, content: string)

  const USER := "user"
  const ASSISTANT := "assistant"

  // ---------------------------------------------------------------- speech to text

  /** The arguments of one `WhisperModel(model).transcribe(audio, language=..., beam_size=...)`. */
  datatype TranscribeRequest = TranscribeRequest(model: string, audio: Audio, language: string, beamSize: int)

  /** What transcribing and reading the segments gives: their texts, a RuntimeError, or another exception. */
  datatype WhisperOutcome = Segments(texts: seq<string>) | RuntimeError(message: string) | OtherError

  type Whisper = TranscribeRequest -> WhisperOutcome

  /** The transcript `run_stt` returns, or an exception escaping it. */
  datatype SttResult = Transcribed(text: string) | SttRaised

  /** The result together with the transcription requests made, in order. */
  datatype SttRun = SttRun(result: SttResult, requests: seq<TranscribeRequest>)

  const PRIMARY_MODEL := "small.en"
  const FALLBACK_MODEL := "medium.en"
  const OUT_OF_MEMORY := "CUDA out of memory"
  const SILENT_INPUT := "[Unintelligible or silent input]"
  const STT_ERROR := "[STT error]"

  /** `max(1, configured)`. */
  function BeamSize(configured: int): (b: int)
    ensures b >= 1 && b >= configured
    ensures b == 1 || b == configured
  {
    if 1 >= configured then 1 else configured
  }

  /** The arguments of `transcribe`: the clip, the configured language and a beam of at least one. */
  function Request(model: string, audio: Audio): (r: TranscribeRequest)
    ensures r.model == model && r.audio == audio && r.language == Config.LANGUAGE
    ensures r.beamSize >= 1 && r.beamSize >= Config.BEAM_SIZE
  {
    TranscribeRequest(model, audio, Config.LANGUAGE, BeamSize(Config.BEAM_SIZE))
  }

  /** The stripped concatenation of the segment texts, or the silence sentinel when that is empty. */
  function TranscriptOf(texts: seq<string>): (t: string)
    ensures t != [] && !IsSpace(t[0]) && !IsSpace(t[|t| - 1])
    ensures Strip(Concat(texts)) != [] ==> t == Strip(Concat(texts))
    ensures Strip(Concat(texts)) == [] ==> t == SILENT_INPUT
  {
    var transcript := Strip(Concat(texts));
    if transcript != [] then transcript else SILENT_INPUT
  }

  /** `run_stt(audio)`. */
  function RunStt(audio: Audio, whisper: Whisper): (r: SttRun)
    ensures 1 <= |r.requests| <= 2 && r.requests[0] == Request(PRIMARY_MODEL, audio)
    ensures forall i :: 0 <= i < |r.requests| ==> r.requests[i].audio == audio && r.requests[i].beamSize >= 1
    ensures |r.requests| == 2 <==>
      whisper(r.requests[0]).RuntimeError? && Contains(whisper(r.requests[0]).message, OUT_OF_MEMORY)
    ensures |r.requests| == 2 ==> r.requests[1] == Request(FALLBACK_MODEL, audio)
    ensures r.result.Transcribed? ==> r.result.text != []
    ensures var last := whisper(r.requests[|r.requests| - 1]);
      last.Segments? ==> r.result == Transcribed(TranscriptOf(last.texts))
    ensures var first := whisper(r.requests[0]);
      first.RuntimeError? && !Contains(first.message, OUT_OF_MEMORY) ==> r.result == Transcribed(STT_ERROR)
    ensures r.result.SttRaised? <==>
      whisper(r.requests[0]).OtherError? || (|r.requests| == 2 && !whisper(r.requests[1]).Segments?)
  {
    var primary := Request(PRIMARY_MODEL, audio);
    match whisper(primary)
    case Segments(texts) => SttRun(Transcribed(TranscriptOf(texts)), [primary])
    case RuntimeError(message) =>
      if Contains(message, OUT_OF_MEMORY) then
        var fallback := Request(FALLBACK_MODEL, audio);
        match whisper(fallback)
        case Segments(texts) => SttRun(Transcribed(TranscriptOf(texts)), [primary, fallback])
        case _ => SttRun(SttRaised, [primary, fallback])
      else
        SttRun(Transcribed(STT_ERROR), [primary])
    case OtherError => SttRun(SttRaised, [primary])
  }

  // ---------------------------------------------------------------- emotion recognition client

  /** The decoded answer of the SER endpoint: an object with its two fields if present, or another JSON value. */
  datatype SerJson = SerObject(emotion: Option<string>, confidence: Option<real>) | SerNotObject

  /** The SER endpoint, as the answer it gives to each uploaded clip. */
  type SerEndpoint = Audio -> Outcome<SerJson>

  /** The pair `(label, confidence)`. */
  datatype Emotion = Emotion(name: string, confidence: real)

  const NEUTRAL := "neutral"
  const DEFAULT_EMOTION := Emotion(NEUTRAL, 0.0)

  /** An answer from which `data["emotion"], data["confidence"]` can be read without raising. */
  predicate Answered(answer: Outcome<SerJson>) {
    answer.Decoded? && answer.body.SerObject? && answer.body.emotion.Some? && answer.body.confidence.Some?
  }

  /** `run_ser(audio)`: the server's pair, or exactly `("neutral", 0.0)` on any failure. */
  function RunSer(audio: Audio, endpoint: SerEndpoint): (e: Emotion)
    ensures Answered(endpoint(audio)) ==>
      e == Emotion(endpoint(audio).body.emotion.value, endpoint(audio).body.confidence.value)
    ensures !Answered(endpoint(audio)) ==> e == DEFAULT_EMOTION
  {
    match endpoint(audio)
    case Decoded(SerObject(Some(name), Some(confidence))) => Emotion(name, confidence)
    case _ => DEFAULT_EMOTION
  }

  // ---------------------------------------------------------------- history digest and prompt

  /**
   * `f"{role.upper()}: {content}"`: the role in capitals, a colon and a space,
   * then the content verbatim; it holds a newline only if the entry does.
   */
  function Line(t: Turn): (r: string)
    ensures |r| == |t.role| + 2 + |t.content|
    ensures forall i :: 0 <= i < |t.role| ==> r[i] == UpperChar(t.role[i])
    ensures r[|t.role|..|t.role| + 2] == ": " && r[|t.role| + 2..] == t.content
    ensures '\n' in r <==> '\n' in t.role || '\n' in t.content
  {
    UpperKeepsNewlines(t.role);
    Upper(t.role) + ": " + t.content
  }

  function Lines(h: seq<Turn>): seq<string> {
    seq(|h|, i requires 0 <= i < |h| => Line(h[i]))
  }

  /**
   * The history rendered as one line per entry, oldest first, joined by
   * newlines: empty only for an empty history, opening with the oldest entry's
   * line and closing with the newest entry's.
   */
  function HistoryText(h: seq<Turn>): (r: string)
    ensures r == [] <==> h == []
    ensures h != [] ==> |Line(h[0])| <= |r| && r[..|Line(h[0])|] == Line(h[0])
    ensures h != [] ==> |Line(h[|h| - 1])| <= |r| && r[|r| - |Line(h[|h| - 1])|..] == Line(h[|h| - 1])
  {
    var r := Join("\n", Lines(h));
    JoinEnds("\n", Lines(h));
    assert h != [] ==> Lines(h)[0] == Line(h[0]) && Lines(h)[|h| - 1] == Line(h[|h| - 1]);
    r
  }

  lemma RoleLines(content: string)
    ensures Line(Turn(USER, content)) == "USER: " + content
    ensures Line(Turn(ASSISTANT, content)) == "ASSISTANT: " + content
  {
    assert Upper(USER) == "USER";
    assert Upper(ASSISTANT) == "ASSISTANT";
  }

  /** Appending an entry appends exactly its line to the digest. */
  lemma HistoryTextAppend(h: seq<Turn>, t: Turn)
    ensures HistoryText(h + [t]) == if h == [] then Line(t) else HistoryText(h) + "\n" + Line(t)
  {
    assert Lines(h + [t]) == Lines(h) + [Line(t)];
    JoinAppend("\n", Lines(h), Line(t));
  }

  /** When no entry holds a newline, the digest splits back into exactly one line per entry, in order. */
  lemma HistoryTextLines(h: seq<Turn>)
    requires h != []
    requires forall i :: 0 <= i < |h| ==> '\n' !in h[i].role && '\n' !in h[i].content
    ensures Split(HistoryText(h), '\n') == Lines(h)
    ensures |Lines(h)| == |h|
  {
    forall i | 0 <= i < |h| ensures '\n' !in Lines(h)[i] {
      UpperKeepsNewlines(h[i].role);
    }
    SplitJoin(Lines(h), '\n');
  }

  /**
   * The fixed text of the `directional_response` prompt, in the pieces that
   * surround the four values it embeds. The source's text is `PROMPT_TEMPLATE`;
   * the lemmas below hold for any pieces.
   */
  datatype Template = Template(opening: string, afterRole: string, afterEmotion: string, afterDirection: string, tail: string)

  const PROMPT_TEMPLATE := Template(
    "\n    You are an ",
    " guiding a structured emotional interaction.\n\n    The user's detected emotion is: ",
    ".\n    Acknowledge this emotion directly in your reply.\n"
    + "    Then respond empathetically and naturally to what they said.\n"
    + "    Finally, guide them smoothly into the next activity: ",
    ".\n"
    + "    Keep your reply short (2\U{2013}3 sentences), conversational, and human\U{2011}like.\n"
    + "    Do not output lists, numbered steps, or meta\U{2011}instructions.\n"
    + "    Do not restart the conversation or re\U{2011}introduce yourself.\n"
    + "    Avoid repeating the same question twice.\n"
    + "    Always continue naturally from the conversation so far.\n\n"
    + "    Conversation so far:\n    ",
    "\n    ")

  /** The template up to the point where the history digest is embedded. */
  function PromptHead(t: Template, role: string, emotionLabel: string, direction: string): string {
    t.opening + role + t.afterRole + emotionLabel + t.afterEmotion + direction + t.afterDirection
  }

  /**
   * The prompt of `directional_response`: it opens with the template's opening
   * and the role, and closes with the digest followed by the template's tail.
   */
  function Prompt(t: Template, role: string, emotionLabel: string, direction: string, historyText: string): (r: string)
    ensures |t.opening + role| <= |r| && r[..|t.opening + role|] == t.opening + role
    ensures |historyText + t.tail| <= |r| && r[|r| - |historyText + t.tail|..] == historyText + t.tail
  {
    var head := PromptHead(t, role, emotionLabel, direction);
    var r := head + historyText + t.tail;
    assert r[..|t.opening + role|] == head[..|t.opening + role|];
    assert r == head + (historyText + t.tail);
    r
  }

  /** The prompt carries the role, the emotion label, the direction and the digest, each verbatim. */
  lemma PromptEmbeds(t: Template, role: string, emotionLabel: string, direction: string, historyText: string)
    ensures var p := Prompt(t, role, emotionLabel, direction, historyText);
      Contains(p, role) && Contains(p, emotionLabel) && Contains(p, direction) && Contains(p, historyText)
  {
    FilledEmbeds(t.opening, role, t.afterRole, emotionLabel, t.afterEmotion, direction, t.afterDirection, historyText, t.tail);
  }

  /** A text filled in between fixed pieces contains each of the values filled in. */
  lemma FilledEmbeds(a: string, role: string, b: string, emotionLabel: string, c: string, direction: string, d: string,
                     historyText: string, e: string)
    ensures var p := a + role + b + emotionLabel + c + direction + d + historyText + e;
      Contains(p, role) && Contains(p, emotionLabel) && Contains(p, direction) && Contains(p, historyText)
  {
    var p := a + role + b + emotionLabel + c + direction + d + historyText + e;
    var rest := d + historyText + e;
    assert p == a + role + (b + emotionLabel + c + direction + rest);
    ContainsInside(a, role, b + emotionLabel + c + direction + rest);
    assert p == (a + role + b) + emotionLabel + (c + direction + rest);
    ContainsInside(a + role + b, emotionLabel, c + direction + rest);
    assert p == (a + role + b + emotionLabel + c) + direction + rest;
    ContainsInside(a + role + b + emotionLabel + c, direction, rest);
    ContainsInside(a + role + b + emotionLabel + c + direction + d, historyText, e);
  }

  /** For the same role, emotion and direction, different histories give different prompts. */
  lemma PromptDeterminesHistory(t: Template, role: string, emotionLabel: string, direction: string, h1: string, h2: string)
    requires Prompt(t, role, emotionLabel, direction, h1) == Prompt(t, role, emotionLabel, direction, h2)
    ensures h1 == h2
  {
    var head := PromptHead(t, role, emotionLabel, direction);
    var p := Prompt(t, role, emotionLabel, direction, h1);
    assert |h1| == |h2|;
    assert h1 == p[|head|..|head| + |h1|];
    assert h2 == Prompt(t, role, emotionLabel, direction, h2)[|head|..|head| + |h2|];
  }

  /** The collaborators of one session. `capture(n)` is the clip recorded when `n` entries have been logged. */
  datatype Env = Env(capture: nat -> Audio, whisper: Whisper, ser: SerEndpoint, llm: Llm.Backend)

  /** What the backend replies to the prompt built from the history `h`, the direction and the emotion label. */
  function Reply(h: seq<Turn>, llm: Llm.Backend, t: Template, direction: string, emotionLabel: string, role: string): (r: string)
    ensures Llm.IsReplyTo(llm(Llm.Payload(Llm.ChatMessages(Prompt(t, role, emotionLabel, direction, HistoryText(h))))), r)
  {
    Llm.GenerateResponse(Prompt(t, role, emotionLabel, direction, HistoryText(h)), llm)
  }
}
