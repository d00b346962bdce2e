/**
 * voice_module.py as the program runs it: the module-level
 * `conversation_history` list is the `history` field of a session object, and
 * each function that appends to it is a method. Every method is proved to do
 * exactly what the matching function of module Script computes from the
 * history before the call.
 */
module Session {
  import opened Wrappers
  import opened Voice
  import opened Script

  class VoiceSession {
    /** `conversation_history`. */
    var history: seq<Turn>
    /** How this session records, listens and replies. */
    const io: Io
    /** The prompt template, the default role and the directions. */
    const texts: Texts

    /** The state at import time: an empty history, the source's texts, the given collaborators. */
    constructor (env: Env)
      ensures history == [] && io == SessionIo(env, TEXTS.template) && texts == TEXTS
    {
      history := [];
      io := SessionIo(env, TEXTS.template);
      texts := TEXTS;
    }

    /** `speak(text)` of llm_module.py: a stub whose body does nothing, so the session is left as it was. */
    method Speak(text: string)
      ensures history == old(history)
    {
    }

    /**
     * `log_and_listen(prompt_text)`: speak the prompt if there is one, then record,
     * transcribe, classify, log the transcript and return it with the emotion.
     */
    method LogAndListen(promptText: string) returns (status: Status<Heard>)
      modifies this
      ensures Run(history, status) == Listen(old(history), io)
    {
      if promptText != "" {
        Speak(promptText);
      }
      var audio := io.capture(|history|);
      var outcome := io.hear(audio);
      match outcome
      case None =>
        status := Raised(TranscriberFailed);
      case Some(heard) =>
        history := history + [Turn(USER, heard.transcript)];
        status := Normal(heard);
    }

    /** `directional_response(direction, emotion_label, role)`: ask for a reply, log it and return it. */
    method DirectionalResponse(direction: string, emotionLabel: string, role: string) returns (response: string)
      modifies this
      ensures response == io.reply(old(history), direction, emotionLabel, role)
      ensures history == old(history) + [Turn(ASSISTANT, response)]
    {
      response := io.reply(history, direction, emotionLabel, role);
      Speak(response);
      history := history + [Turn(ASSISTANT, response)];
    }

    /** `activity_emotion_recognition()`; like every `activity_*` function it returns nothing. */
    method ActivityEmotionRecognition()
      modifies this
      ensures history == Say(old(history), io, texts, texts.emotionRecognition, NEUTRAL)
    {
      var _ := DirectionalResponse(texts.emotionRecognition, NEUTRAL, texts.role);
    }

    /** `activity_adaptive_dialogue(emotion_label)`. */
    method ActivityAdaptiveDialogue(emotionLabel: string)
      modifies this
      ensures history == Say(old(history), io, texts, texts.adaptiveDialogue, emotionLabel)
    {
      var _ := DirectionalResponse(texts.adaptiveDialogue, emotionLabel, texts.role);
    }

    /** `activity_role_swapping()`. */
    method ActivityRoleSwapping()
      modifies this
      ensures history == Say(old(history), io, texts, texts.roleSwapping, NEUTRAL)
    {
      var _ := DirectionalResponse(texts.roleSwapping, NEUTRAL, texts.role);
    }

    /** `activity_scenario_based()`. */
    method ActivityScenarioBased()
      modifies this
      ensures history == Say(old(history), io, texts, texts.scenarioBased, NEUTRAL)
    {
      var _ := DirectionalResponse(texts.scenarioBased, NEUTRAL, texts.role);
    }

    /**
     * Lines 138-156: the greeting and the four activities that, since line 133
     * is only a comment, run inside `activity_task_with_feedback`. The adaptive
     * stage is prompted with the label heard after the greeting.
     */
    method NestedStages() returns (status: Status<()>)
      modifies this
      ensures Run(history, status) == Completed(RunStages(old(history), io, texts, LevelSteps(texts), []))
    {
      ghost var start := history;
      // The stages still to run, and what they have heard so far.
      ghost var steps := LevelSteps(texts);
      assert WellFormed(steps, 0);
      ghost var rest, heard := steps, [];

      ghost var before := history;
      var _ := DirectionalResponse(texts.greeting, NEUTRAL, texts.role);
      ghost var mid := history;
      var greeting := LogAndListen("");
      StageStep(start, io, texts, steps, rest, heard, before, mid, history, greeting);
      if greeting.Raised? {
        return Raised(greeting.cause);
      }
      var emotionLabel := greeting.value.emotion.name;
      rest, heard := rest[1..], heard + [greeting.value];

      before := history;
      ActivityEmotionRecognition();
      mid := history;
      var probe := LogAndListen("");
      StageStep(start, io, texts, steps, rest, heard, before, mid, history, probe);
      if probe.Raised? {
        return Raised(probe.cause);
      }
      rest, heard := rest[1..], heard + [probe.value];

      before := history;
      ActivityAdaptiveDialogue(emotionLabel);
      mid := history;
      var adaptive := LogAndListen("");
      StageStep(start, io, texts, steps, rest, heard, before, mid, history, adaptive);
      if adaptive.Raised? {
        return Raised(adaptive.cause);
      }
      rest, heard := rest[1..], heard + [adaptive.value];

      before := history;
      ActivityRoleSwapping();
      mid := history;
      var swap := LogAndListen("");
      StageStep(start, io, texts, steps, rest, heard, before, mid, history, swap);
      if swap.Raised? {
        return Raised(swap.cause);
      }
      rest, heard := rest[1..], heard + [swap.value];

      before := history;
      ActivityScenarioBased();
      mid := history;
      var scenario := LogAndListen("");
      StageStep(start, io, texts, steps, rest, heard, before, mid, history, scenario);
      if scenario.Raised? {
        return Raised(scenario.cause);
      }
      rest, heard := rest[1..], heard + [scenario.value];
      assert rest == [];
      status := Normal(());
    }

    /**
     * `activity_task_with_feedback()` as the file is indented: lines 130-170,
     * with `fuel` calls left before Python's recursion limit.
     */
    method ActivityTaskWithFeedback(fuel: nat) returns (status: Status<()>)
      modifies this
      ensures Run(history, status) == TaskWithFeedback(old(history), io, texts, fuel)
      decreases fuel
    {
      if fuel == 0 {
        return Raised(RecursionLimit);
      }
      ghost var start := history;
      var _ := DirectionalResponse(texts.taskWithFeedback, NEUTRAL, texts.role);
      var level := NestedStages();
      assert Run(history, level) == Level(start, io, texts);
      if level.Raised? {
        return level;
      }
      var inner := ActivityTaskWithFeedback(fuel - 1);
      if inner.Raised? {
        return inner;
      }
      var last := LogAndListen("");
      if last.Raised? {
        return Raised(last.cause);
      }
      var _ := DirectionalResponse(texts.nestedClosing, NEUTRAL, texts.role);
      status := Raised(UnboundName);
    }

    /**
     * `process_voice()` (lines 173-206): the opening stages, then the task
     * activity, then one more listen and the closing reply, keeping the last
     * transcript, emotion, confidence and response as it goes. The value the
     * `activity_*` calls return is `None`, which `lastResponse` records.
     */
    method ProcessVoice(fuel: nat) returns (status: Status<SessionResult>)
      modifies this
      ensures Run(history, status) == Script.ProcessVoice(old(history), io, texts, fuel)
    {
      var lastTranscript: string := "";
      var lastEmotion := NEUTRAL;
      var lastConf: real := 1.0;
      var lastResponse: Option<string> := Some("");
      ghost var start := history;
      // The stages still to run, and what they have heard so far.
      ghost var steps := OpeningSteps(texts);
      assert WellFormed(steps, 0);
      ghost var rest, heard := steps, [];

      ghost var before := history;
      var greeting := DirectionalResponse(texts.greeting, lastEmotion, texts.role);
      lastResponse := Some(greeting);
      ghost var mid := history;
      var listened := LogAndListen("");
      StageStep(start, io, texts, steps, rest, heard, before, mid, history, listened);
      if listened.Raised? {
        return Raised(listened.cause);
      }
      rest, heard := rest[1..], heard + [listened.value];
      lastTranscript, lastEmotion, lastConf := listened.value.transcript, listened.value.emotion.name, listened.value.emotion.confidence;

      before := history;
      ActivityEmotionRecognition();
      lastResponse := None;
      mid := history;
      listened := LogAndListen("");
      StageStep(start, io, texts, steps, rest, heard, before, mid, history, listened);
      if listened.Raised? {
        return Raised(listened.cause);
      }
      rest, heard := rest[1..], heard + [listened.value];
      lastTranscript, lastEmotion, lastConf := listened.value.transcript, listened.value.emotion.name, listened.value.emotion.confidence;

      before := history;
      ActivityAdaptiveDialogue(lastEmotion);
      lastResponse := None;
      mid := history;
      listened := LogAndListen("");
      StageStep(start, io, texts, steps, rest, heard, before, mid, history, listened);
      if listened.Raised? {
        return Raised(listened.cause);
      }
      rest, heard := rest[1..], heard + [listened.value];
      lastTranscript, lastEmotion, lastConf := listened.value.transcript, listened.value.emotion.name, listened.value.emotion.confidence;

      before := history;
      ActivityRoleSwapping();
      lastResponse := None;
      mid := history;
      listened := LogAndListen("");
      StageStep(start, io, texts, steps, rest, heard, before, mid, history, listened);
      if listened.Raised? {
        return Raised(listened.cause);
      }
      rest, heard := rest[1..], heard + [listened.value];
      lastTranscript, lastEmotion, lastConf := listened.value.transcript, listened.value.emotion.name, listened.value.emotion.confidence;

      before := history;
      ActivityScenarioBased();
      lastResponse := None;
      mid := history;
      listened := LogAndListen("");
      StageStep(start, io, texts, steps, rest, heard, before, mid, history, listened);
      if listened.Raised? {
        return Raised(listened.cause);
      }
      rest, heard := rest[1..], heard + [listened.value];
      assert rest == [];
      lastTranscript, lastEmotion, lastConf := listened.value.transcript, listened.value.emotion.name, listened.value.emotion.confidence;

      var task := ActivityTaskWithFeedback(fuel);
      if task.Raised? {
        return Raised(task.cause);
      }
      lastResponse := None;
      listened := LogAndListen("");
      if listened.Raised? {
        return Raised(listened.cause);
      }
      lastTranscript, lastEmotion, lastConf := listened.value.transcript, listened.value.emotion.name, listened.value.emotion.confidence;

      var closing := DirectionalResponse(texts.closing, lastEmotion, texts.role);
      lastResponse := Some(closing);
      status := Normal(SessionResult(lastTranscript, lastEmotion, lastConf, lastResponse.value));
    }
  }
}
