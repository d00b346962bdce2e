/**
 * The scripted session of voice_module.py as functions of the history before
 * each step. As the file is written, the comment `#def process_voice():` does
 * not end the body of `activity_task_with_feedback`: that body runs the task
 * prompt, then a whole greeting / probe / adaptive / role-swap / scenario
 * sequence, then calls itself. The session therefore never reaches its closing
 * stage; it ends by an exception, at the latest when the interpreter's
 * recursion limit (here: the fuel) is exhausted.
 */
module Script {
  import opened Wrappers
  import opened Voice
  import opened PyStr
  import Llm

  /** The fixed texts of the session: the prompt template, the default role and every direction. */
  datatype Texts = Texts(
    template: Template, role: string,
    greeting: string, emotionRecognition: string, adaptiveDialogue: string,
    roleSwapping: string, scenarioBased: string, taskWithFeedback: string,
    nestedClosing: string, closing: string)

  /** The texts as voice_module.py writes them (the role is the default of `directional_response`). */
  const TEXTS := Texts(
    PROMPT_TEMPLATE, "empathetic companion",
    "Greet the user warmly and ask their name.",
    "Ask the user to say a neutral sentence in different emotions (happy, sad, angry, neutral). Then guess the emotion and state confidence.",
    "Ask the user how their day is going. Respond based on their emotion.",
    "Tell the user you feel nervous or sad, and ask them to cheer you up with their voice.",
    "Present a short scenario, like 'Imagine you lost your keys,' and ask the user to respond emotionally. Then comment on their tone.",
    "Give the user a simple task, like a trivia question. If they sound frustrated, slow down and encourage them.",
    "Thank the user, reflect on how emotions shaped the interaction, and close warmly.",
    "Thank the user, reflect on how emotions shaped the interaction, and end the session with a clear goodbye. Do not continue the conversation after this.")

  /** Why a run stopped: an exception out of `run_stt`, Python's recursion limit, or a NameError. */
  datatype Cause = TranscriberFailed | RecursionLimit | UnboundName

  datatype Status<+T> = Normal(value: T) | Raised(cause: Cause)

  /** The history after a step, with how the step ended. */
  datatype Run<+T> = Run(history: seq<Turn>, status: Status<T>)

  /** What `log_and_listen` returns: the transcript and the `(label, confidence)` pair. */
  datatype Heard = Heard(transcript: string, emotion: Emotion)

  /** The dict `process_voice` would return. */
  datatype SessionResult = SessionResult(transcript: string, speechEmotion: string, speechConf: real, llmResponse: string)

  /**
   * `run_stt` and `run_ser` on one clip, as `log_and_listen` calls them: `None`
   * when `run_stt` raises (and `run_ser` is then never reached).
   */
  function Listened(audio: Audio, env: Env): (r: Option<Heard>)
    ensures r.None? <==> RunStt(audio, env.whisper).result.SttRaised?
    ensures r.Some? ==>
      r.value.transcript != [] &&
      r.value.transcript == RunStt(audio, env.whisper).result.text &&
      r.value.emotion == RunSer(audio, env.ser)
  {
    match RunStt(audio, env.whisper).result
    case SttRaised => None
    case Transcribed(transcript) => Some(Heard(transcript, RunSer(audio, env.ser)))
  }

  /**
   * How a session records, listens and replies: `capture(n)` is the clip
   * recorded when `n` entries have been logged, `hear` runs speech-to-text and
   * emotion recognition on a clip, and `reply(h, direction, emotionLabel, role)`
   * is what `directional_response` obtains for the history `h`.
   */
  datatype Io = Io(
    capture: nat -> Audio,
    hear: Audio -> Option<Heard>,
    reply: (seq<Turn>, string, string, string) -> string)

  /** The collaborators of voice_module.py, wired as the source wires them. */
  function SessionIo(env: Env, template: Template): Io {
    Io(env.capture,
       audio => Listened(audio, env),
       (h, direction, emotionLabel, role) => Reply(h, env.llm, template, direction, emotionLabel, role))
  }

  /**
   * With the source's collaborators, a listen logs exactly the transcript that
   * `run_stt` produced for the clip just recorded and returns it with the pair
   * `run_ser` gives for the same clip; when `run_stt` raises, nothing is logged.
   */
  lemma SessionListen(h: seq<Turn>, env: Env, t: Template)
    ensures var r := Listen(h, SessionIo(env, t));
      var audio := env.capture(|h|);
      var stt := RunStt(audio, env.whisper).result;
      (r.status.Raised? <==> stt.SttRaised?) &&
      (r.status.Raised? ==> r.history == h && r.status.cause == TranscriberFailed) &&
      (r.status.Normal? ==>
        stt.text != [] &&
        r.history == h + [Turn(USER, stt.text)] &&
        r.status.value == Heard(stt.text, RunSer(audio, env.ser)))
  {
  }

  /**
   * With the source's collaborators, a directional response logs one assistant
   * entry: the reply the backend gives to the two-message chat whose prompt
   * embeds the role, label and direction and the digest of the history before it.
   */
  lemma SessionSay(h: seq<Turn>, env: Env, tx: Texts, direction: string, emotionLabel: string)
    ensures var said := Say(h, SessionIo(env, tx.template), tx, direction, emotionLabel);
      var prompt := Prompt(tx.template, tx.role, emotionLabel, direction, HistoryText(h));
      |said| == |h| + 1 && said[..|h|] == h && said[|h|].role == ASSISTANT &&
      Llm.IsReplyTo(env.llm(Llm.Payload(Llm.ChatMessages(prompt))), said[|h|].content) &&
      Contains(prompt, HistoryText(h)) && Contains(prompt, direction) && Contains(prompt, emotionLabel)
  {
    PromptEmbeds(tx.template, tx.role, emotionLabel, direction, HistoryText(h));
    var said := Say(h, SessionIo(env, tx.template), tx, direction, emotionLabel);
    assert said[..|h|] == h;
  }

  /** `log_and_listen()`: the transcript is logged as a user entry; an exception out of `run_stt` logs nothing. */
  function Listen(h: seq<Turn>, io: Io): Run<Heard> {
    match io.hear(io.capture(|h|))
    case None => Run(h, Raised(TranscriberFailed))
    case Some(v) => Run(h + [Turn(USER, v.transcript)], Normal(v))
  }

  /** `directional_response(direction, emotion_label)` with the default role: the history with the reply logged. */
  function Say(h: seq<Turn>, io: Io, tx: Texts, direction: string, emotionLabel: string): seq<Turn> {
    h + [Turn(ASSISTANT, io.reply(h, direction, emotionLabel, tx.role))]
  }

  /**
   * A listen raises exactly when hearing the clip recorded at this point fails,
   * and then logs nothing; otherwise it logs one user entry, the transcript of
   * the value it returns, which is what was heard on that clip.
   */
  lemma ListenLogs(h: seq<Turn>, io: Io)
    ensures var r := Listen(h, io);
      (r.status.Raised? <==> io.hear(io.capture(|h|)).None?) &&
      (r.status.Raised? ==> r.history == h && r.status.cause == TranscriberFailed) &&
      (r.status.Normal? ==>
        io.hear(io.capture(|h|)) == Some(r.status.value) &&
        r.history == h + [Turn(USER, r.status.value.transcript)])
  {
  }

  /** A directional response keeps the history and logs one assistant entry: the reply obtained for that history. */
  lemma SayLogs(h: seq<Turn>, io: Io, tx: Texts, direction: string, emotionLabel: string)
    ensures var r := Say(h, io, tx, direction, emotionLabel);
      |r| == |h| + 1 && r[..|h|] == h &&
      r[|h|] == Turn(ASSISTANT, io.reply(h, direction, emotionLabel, tx.role))
  {
    var r := Say(h, io, tx, direction, emotionLabel);
    assert r[..|h|] == h;
  }

  /** Which emotion label a stage's prompt carries: "neutral", or the label heard by an earlier stage of the same run. */
  datatype Prompted = Neutral | HeardBy(stage: nat)

  /** One stage of the script: a directional response, then `log_and_listen()`. */
  datatype Step = Step(direction: string, prompted: Prompted)

  /** Every stage prompted with a heard label refers to a stage before it (`done` stages have run already). */
  predicate WellFormed(steps: seq<Step>, done: nat) {
    forall i :: 0 <= i < |steps| && steps[i].prompted.HeardBy? ==> steps[i].prompted.stage < done + i
  }

  /** The stages after the first of a well-formed script are well formed once it has run. */
  lemma WellFormedTail(steps: seq<Step>, done: nat)
    requires steps != [] && WellFormed(steps, done)
    ensures WellFormed(steps[1..], done + 1)
  {
    forall i | 0 <= i < |steps[1..]| && steps[1..][i].prompted.HeardBy?
      ensures steps[1..][i].prompted.stage < done + 1 + i
    {
      assert steps[1..][i] == steps[i + 1];
    }
  }

  function LabelFor(p: Prompted, heard: seq<Heard>): string
    requires p.HeardBy? ==> p.stage < |heard|
  {
    match p
    case Neutral => NEUTRAL
    case HeardBy(k) => heard[k].emotion.name
  }

  /** Lines 180-193 of `process_voice`: the adaptive stage is prompted with the label heard by the probe. */
  function OpeningSteps(tx: Texts): seq<Step> {
    [Step(tx.greeting, Neutral), Step(tx.emotionRecognition, Neutral), Step(tx.adaptiveDialogue, HeardBy(1)),
     Step(tx.roleSwapping, Neutral), Step(tx.scenarioBased, Neutral)]
  }

  /** Lines 139-156: the same stages, but the adaptive stage is prompted with the label heard after the greeting. */
  function LevelSteps(tx: Texts): seq<Step> {
    [Step(tx.greeting, Neutral), Step(tx.emotionRecognition, Neutral), Step(tx.adaptiveDialogue, HeardBy(0)),
     Step(tx.roleSwapping, Neutral), Step(tx.scenarioBased, Neutral)]
  }

  /**
   * Runs the stages in order after `heard` was collected; an exception out of a
   * listen ends the run with the history logged so far.
   */
  function RunStages(h: seq<Turn>, io: Io, tx: Texts, steps: seq<Step>, heard: seq<Heard>): (r: Run<seq<Heard>>)
    requires WellFormed(steps, |heard|)
    ensures |h| <= |r.history| && r.history[..|h|] == h
    ensures r.status.Raised? ==> r.status.cause == TranscriberFailed && |r.history| < |h| + 2 * |steps|
    ensures r.status.Normal? ==>
      |r.history| == |h| + 2 * |steps| && |r.status.value| == |heard| + |steps|
    decreases |steps|
  {
    if steps == [] then Run(h, Normal(heard))
    else
      var said := Say(h, io, tx, steps[0].direction, LabelFor(steps[0].prompted, heard));
      var listened := Listen(said, io);
      match listened.status
      case Raised(cause) => Run(listened.history, Raised(cause))
      case Normal(v) =>
        WellFormedTail(steps, |heard|);
        var r := RunStages(listened.history, io, tx, steps[1..], heard + [v]);
        PrefixTrans(h, listened.history, r.history);
        r
  }

  /**
   * One stage of a run in progress. If the run of all `steps` from `h0` is the
   * run of the remaining stages `rest` from `before`, then once the reply of
   * `rest[0]` has been logged (`mid`) and the listen after it has ended
   * (`after`, `status`), the run of all stages either ended there, raised, or is
   * the run of `rest[1..]` from `after` with one more heard value.
   */
  lemma StageStep(h0: seq<Turn>, io: Io, tx: Texts, steps: seq<Step>, rest: seq<Step>, heard: seq<Heard>,
                  before: seq<Turn>, mid: seq<Turn>, after: seq<Turn>, status: Status<Heard>)
    requires WellFormed(steps, 0) && rest != [] && WellFormed(rest, |heard|)
    requires RunStages(h0, io, tx, steps, []) == RunStages(before, io, tx, rest, heard)
    requires mid == Say(before, io, tx, rest[0].direction, LabelFor(rest[0].prompted, heard))
    requires Run(after, status) == Listen(mid, io)
    ensures status.Raised? ==> RunStages(h0, io, tx, steps, []) == Run(after, Raised(status.cause))
    ensures status.Normal? ==>
      WellFormed(rest[1..], |heard| + 1) &&
      RunStages(h0, io, tx, steps, []) == RunStages(after, io, tx, rest[1..], heard + [status.value])
  {
    WellFormedTail(rest, |heard|);
  }

  /** How a run of stages ends, with the heard values dropped. */
  function Completed(r: Run<seq<Heard>>): Run<()> {
    Run(r.history, if r.status.Raised? then Raised(r.status.cause) else Normal(()))
  }

  /** Lines 130-156: the task prompt, then the five stages. */
  function Level(h: seq<Turn>, io: Io, tx: Texts): (r: Run<()>)
    ensures |h| < |r.history| && r.history[..|h|] == h
    ensures r.status.Raised? ==> r.status.cause == TranscriberFailed
  {
    var said := Say(h, io, tx, tx.taskWithFeedback, NEUTRAL);
    var r := RunStages(said, io, tx, LevelSteps(tx), []);
    PrefixTrans(h, said, r.history);
    Completed(r)
  }

  /**
   * `activity_task_with_feedback()` with `fuel` calls left before the recursion limit:
   * one level, the recursive call of line 159, and lines 160-170, which run only
   * if that call returns and end by naming the unbound `transcript`.
   */
  function TaskWithFeedback(h: seq<Turn>, io: Io, tx: Texts, fuel: nat): (r: Run<()>)
    ensures |h| <= |r.history| && r.history[..|h|] == h
    ensures fuel == 0 ==> r.status == Raised(RecursionLimit)
    decreases fuel
  {
    if fuel == 0 then Run(h, Raised(RecursionLimit))
    else
      var level := Level(h, io, tx);
      if level.status.Raised? then level
      else
        var inner := TaskWithFeedback(level.history, io, tx, fuel - 1);
        PrefixTrans(h, level.history, inner.history);
        if inner.status.Raised? then inner
        else
          var last := Listen(inner.history, io);
          PrefixTrans(h, inner.history, last.history);
          if last.status.Raised? then Run(last.history, Raised(last.status.cause))
          else
            var closed := Say(last.history, io, tx, tx.nestedClosing, NEUTRAL);
            PrefixTrans(h, last.history, closed);
            Run(closed, Raised(UnboundName))
  }

  /** `process_voice()`, with `fuel` nested calls allowed to `activity_task_with_feedback`. */
  function ProcessVoice(h: seq<Turn>, io: Io, tx: Texts, fuel: nat): (r: Run<SessionResult>)
    ensures |h| <= |r.history| && r.history[..|h|] == h
  {
    var opening := RunStages(h, io, tx, OpeningSteps(tx), []);
    if opening.status.Raised? then Run(opening.history, Raised(opening.status.cause)) else
    var task := TaskWithFeedback(opening.history, io, tx, fuel);
    PrefixTrans(h, opening.history, task.history);
    if task.status.Raised? then Run(task.history, Raised(task.status.cause)) else
    var last := Listen(task.history, io);
    PrefixTrans(h, task.history, last.history);
    if last.status.Raised? then Run(last.history, Raised(last.status.cause)) else
    var heard := last.status.value;
    var response := io.reply(last.history, tx.closing, heard.emotion.name, tx.role);
    var closed := last.history + [Turn(ASSISTANT, response)];
    PrefixTrans(h, last.history, closed);
    Run(closed, Normal(SessionResult(heard.transcript, heard.emotion.name, heard.emotion.confidence, response)))
  }

  // ---------------------------------------------------------------- the shape of a run

  function Roles(h: seq<Turn>): seq<string> {
    seq(|h|, i requires 0 <= i < |h| => h[i].role)
  }

  function Repeat(s: seq<string>, n: nat): seq<string> {
    if n == 0 then [] else s + Repeat(s, n - 1)
  }

  const EXCHANGE := [ASSISTANT, USER]
  const OPENING_ROLES := Repeat(EXCHANGE, 5)
  const LEVEL_ROLES := [ASSISTANT] + OPENING_ROLES

  lemma RolesAppend(a: seq<Turn>, b: seq<Turn>)
    ensures Roles(a + b) == Roles(a) + Roles(b)
  {
  }

  lemma {:induction false} RepeatLength(s: seq<string>, n: nat)
    ensures |Repeat(s, n)| == n * |s|
  {
    if n > 0 {
      RepeatLength(s, n - 1);
    }
  }

  /** An exchange of a reply and a transcript, in front of `n` more exchanges. */
  lemma NormalStepRoles(h: seq<Turn>, a: Turn, u: Turn, rest: seq<Turn>, n: nat)
    requires a.role == ASSISTANT && u.role == USER
    requires Roles(rest) == Roles(h + [a] + [u]) + Repeat(EXCHANGE, n)
    ensures Roles(rest) == Roles(h) + Repeat(EXCHANGE, n + 1)
  {
    RolesAppend(h, [a] + [u]);
    assert h + [a] + [u] == h + ([a] + [u]);
    assert Roles(h) + EXCHANGE + Repeat(EXCHANGE, n) == Roles(h) + (EXCHANGE + Repeat(EXCHANGE, n));
  }

  /** An exchange in front of `j` exchanges and a reply whose listen raised. */
  lemma RaisedStepRoles(h: seq<Turn>, a: Turn, u: Turn, rest: seq<Turn>, j: nat)
    requires a.role == ASSISTANT && u.role == USER
    requires Roles(rest) == Roles(h + [a] + [u]) + Repeat(EXCHANGE, j) + [ASSISTANT]
    ensures Roles(rest) == Roles(h) + Repeat(EXCHANGE, j + 1) + [ASSISTANT]
  {
    RolesAppend(h, [a] + [u]);
    assert h + [a] + [u] == h + ([a] + [u]);
    assert Roles(h) + EXCHANGE + Repeat(EXCHANGE, j) + [ASSISTANT] == Roles(h) + (EXCHANGE + Repeat(EXCHANGE, j)) + [ASSISTANT];
  }

  lemma PrefixOfPrefix<T>(s: seq<T>, p: seq<T>, q: seq<T>)
    requires |p + q| <= |s| && s[..|p + q|] == p + q
    ensures s[..|p|] == p
  {
    assert s[..|p|] == (s[..|p + q|])[..|p|];
  }

  /** A run of stages only appends to the history: one reply and one transcript per stage, or a reply the listen after which raised. */
  lemma {:induction false} RunStagesShape(h: seq<Turn>, io: Io, tx: Texts, steps: seq<Step>, heard: seq<Heard>)
    requires WellFormed(steps, |heard|)
    ensures var r := RunStages(h, io, tx, steps, heard);
      |h| <= |r.history| && r.history[..|h|] == h &&
      (r.status.Normal? ==>
        |r.history| == |h| + 2 * |steps| &&
        Roles(r.history) == Roles(h) + Repeat(EXCHANGE, |steps|) &&
        |r.status.value| == |heard| + |steps| && r.status.value[..|heard|] == heard) &&
      (r.status.Raised? ==>
        r.status.cause == TranscriberFailed &&
        exists j :: 0 <= j < |steps| && Roles(r.history) == Roles(h) + Repeat(EXCHANGE, j) + [ASSISTANT])
    decreases |steps|
  {
    if steps != [] {
      var r := RunStages(h, io, tx, steps, heard);
      var emotionLabel := LabelFor(steps[0].prompted, heard);
      var a := Turn(ASSISTANT, io.reply(h, steps[0].direction, emotionLabel, tx.role));
      var listened := Listen(h + [a], io);
      if listened.status.Normal? {
        var v := listened.status.value;
        var u := Turn(USER, v.transcript);
        WellFormedTail(steps, |heard|);
        RunStagesShape(h + [a] + [u], io, tx, steps[1..], heard + [v]);
        if r.status.Normal? {
          PrefixOfPrefix(r.status.value, heard, [v]);
          NormalStepRoles(h, a, u, r.history, |steps| - 1);
        } else {
          var j :| 0 <= j < |steps| - 1 && Roles(r.history) == Roles(h + [a] + [u]) + Repeat(EXCHANGE, j) + [ASSISTANT];
          RaisedStepRoles(h, a, u, r.history, j);
        }
      } else {
        RolesAppend(h, [a]);
        assert Roles(r.history) == Roles(h) + Repeat(EXCHANGE, 0) + [ASSISTANT];
      }
    }
  }

  /** Entry `at` of `hist` is the reply to the prompt built from the entries before it, the direction and the label. */
  predicate RepliedTo(hist: seq<Turn>, at: nat, io: Io, tx: Texts, direction: string, emotionLabel: string)
    requires at < |hist|
  {
    hist[at] == Turn(ASSISTANT, io.reply(hist[..at], direction, emotionLabel, tx.role))
  }

  /**
   * Entries `at` and `at + 1` of `hist` are what one stage logs: the reply to the
   * prompt built from the entries before it, with the stage's direction and label,
   * then the transcript of the k-th listen, whose emotion is the server's verdict
   * on the clip recorded at that point.
   */
  predicate Logged(hist: seq<Turn>, at: nat, io: Io, tx: Texts, step: Step, heard: seq<Heard>, k: nat)
    requires at + 2 <= |hist| && k < |heard| && (step.prompted.HeardBy? ==> step.prompted.stage < |heard|)
  {
    RepliedTo(hist, at, io, tx, step.direction, LabelFor(step.prompted, heard)) &&
    hist[at + 1] == Turn(USER, heard[k].transcript) &&
    io.hear(io.capture(at + 1)) == Some(heard[k])
  }

  lemma FirstLogged(hist: seq<Turn>, h: seq<Turn>, a: Turn, u: Turn, io: Io, tx: Texts, step: Step,
                    heard: seq<Heard>, value: seq<Heard>, v: Heard)
    requires |h + [a] + [u]| <= |hist| && hist[..|h + [a] + [u]|] == h + [a] + [u]
    requires |heard + [v]| <= |value| && value[..|heard + [v]|] == heard + [v]
    requires step.prompted.HeardBy? ==> step.prompted.stage < |heard|
    requires a == Turn(ASSISTANT, io.reply(h, step.direction, LabelFor(step.prompted, heard), tx.role))
    requires u == Turn(USER, v.transcript) && io.hear(io.capture(|h| + 1)) == Some(v)
    ensures Logged(hist, |h|, io, tx, step, value, |heard|)
  {
    PrefixOfPrefix(hist, h, [a] + [u]);
    assert hist[|h|] == (h + [a] + [u])[|h|];
    assert hist[|h| + 1] == (h + [a] + [u])[|h| + 1];
    PrefixOfPrefix(value, heard, [v]);
    assert value[|heard|] == (heard + [v])[|heard|];
  }

  /** `Logged` for every stage, the first at `at`, the next two entries further, and so on. */
  predicate LoggedAll(hist: seq<Turn>, at: nat, io: Io, tx: Texts, steps: seq<Step>, heard: seq<Heard>, k: nat)
    requires at + 2 * |steps| <= |hist| && k + |steps| <= |heard| && WellFormed(steps, k)
    decreases |steps|
  {
    steps == [] ||
    (Logged(hist, at, io, tx, steps[0], heard, k) && LoggedAll(hist, at + 2, io, tx, steps[1..], heard, k + 1))
  }

  /** When every listen succeeds, the history holds each stage's reply and transcript, in order. */
  lemma {:induction false} RunStagesLogged(h: seq<Turn>, io: Io, tx: Texts, steps: seq<Step>, heard: seq<Heard>)
    requires WellFormed(steps, |heard|)
    ensures var r := RunStages(h, io, tx, steps, heard);
      r.status.Normal? ==>
        |r.history| == |h| + 2 * |steps| && |r.status.value| == |heard| + |steps| &&
        LoggedAll(r.history, |h|, io, tx, steps, r.status.value, |heard|)
    decreases |steps|
  {
    RunStagesShape(h, io, tx, steps, heard);
    var r := RunStages(h, io, tx, steps, heard);
    if steps != [] && r.status.Normal? {
      var emotionLabel := LabelFor(steps[0].prompted, heard);
      var a := Turn(ASSISTANT, io.reply(h, steps[0].direction, emotionLabel, tx.role));
      var listened := Listen(h + [a], io);
      var v := listened.status.value;
      var u := Turn(USER, v.transcript);
      RunStagesShape(h + [a] + [u], io, tx, steps[1..], heard + [v]);
      RunStagesLogged(h + [a] + [u], io, tx, steps[1..], heard + [v]);
      FirstLogged(r.history, h, a, u, io, tx, steps[0], heard, r.status.value, v);
    }
  }

  lemma PrefixTrans(a: seq<Turn>, b: seq<Turn>, c: seq<Turn>)
    requires |a| <= |b| <= |c| && b[..|a|] == a && c[..|b|] == b
    ensures c[..|a|] == a
  {
    assert c[..|a|] == c[..|b|][..|a|];
  }

  /** The shape of a level from the shape of its five stages after the task reply `a`. */
  lemma LevelShapeFrom(h: seq<Turn>, a: Turn, hist: seq<Turn>, normal: bool)
    requires a.role == ASSISTANT
    requires |h + [a]| <= |hist| && hist[..|h + [a]|] == h + [a]
    requires normal ==> Roles(hist) == Roles(h + [a]) + Repeat(EXCHANGE, 5)
    requires !normal ==> exists j :: 0 <= j < 5 && Roles(hist) == Roles(h + [a]) + Repeat(EXCHANGE, j) + [ASSISTANT]
    ensures |h| < |hist| && hist[..|h|] == h
    ensures normal ==> Roles(hist) == Roles(h) + LEVEL_ROLES
    ensures !normal ==> |hist| < |h| + 11
  {
    PrefixOfPrefix(hist, h, [a]);
    RolesAppend(h, [a]);
    assert |Roles(hist)| == |hist| && |Roles(h)| == |h|;
    if normal {
      assert Roles(h) + [ASSISTANT] + OPENING_ROLES == Roles(h) + ([ASSISTANT] + OPENING_ROLES);
    } else {
      var j :| 0 <= j < 5 && Roles(hist) == Roles(h + [a]) + Repeat(EXCHANGE, j) + [ASSISTANT];
      RepeatLength(EXCHANGE, j);
    }
  }

  /** One level (lines 130-156) appends 11 entries, one assistant reply and then five reply/transcript pairs, unless a listen raises. */
  lemma LevelShape(h: seq<Turn>, io: Io, tx: Texts)
    ensures var r := Level(h, io, tx);
      |h| < |r.history| && r.history[..|h|] == h &&
      (r.status.Normal? ==> Roles(r.history) == Roles(h) + LEVEL_ROLES) &&
      (r.status.Raised? ==> r.status.cause == TranscriberFailed && |r.history| < |h| + 11)
  {
    var a := Turn(ASSISTANT, io.reply(h, tx.taskWithFeedback, NEUTRAL, tx.role));
    var steps := LevelSteps(tx);
    assert WellFormed(steps, 0);
    RunStagesShape(h + [a], io, tx, steps, []);
    var r := RunStages(h + [a], io, tx, steps, []);
    LevelShapeFrom(h, a, r.history, r.status.Normal?);
  }

  /** The shape after a whole level and the rest of the recursion. */
  lemma NestedShapeFrom(h: seq<Turn>, mid: seq<Turn>, hist: seq<Turn>, fuel: nat, limit: bool)
    requires fuel > 0
    requires |h| < |mid| <= |hist| && mid[..|h|] == h && hist[..|mid|] == mid
    requires Roles(mid) == Roles(h) + LEVEL_ROLES
    requires limit ==> Roles(hist) == Roles(mid) + Repeat(LEVEL_ROLES, fuel - 1)
    requires !limit ==> |hist| < |mid| + 11 * (fuel - 1)
    ensures hist[..|h|] == h
    ensures limit ==> Roles(hist) == Roles(h) + Repeat(LEVEL_ROLES, fuel)
    ensures !limit ==> |hist| < |h| + 11 * fuel
  {
    PrefixTrans(h, mid, hist);
    assert |Roles(mid)| == |mid| && |Roles(h)| == |h|;
    RepeatLength(EXCHANGE, 5);
    assert |LEVEL_ROLES| == 11;
    if limit {
      RepeatUnfold(Roles(h), LEVEL_ROLES, fuel);
    }
  }

  lemma RepeatUnfold(a: seq<string>, s: seq<string>, n: nat)
    requires n > 0
    ensures a + s + Repeat(s, n - 1) == a + Repeat(s, n)
  {
    assert a + s + Repeat(s, n - 1) == a + (s + Repeat(s, n - 1));
  }

  /**
   * `activity_task_with_feedback()` never returns: whatever the collaborators do,
   * it raises, and never at the NameError of line 166, since the recursive call
   * before it never returns. Each completed level logs 11 entries, so hitting
   * the recursion limit leaves `fuel` whole levels behind, and a failing
   * transcription leaves fewer than 11 entries per level allowed.
   */
  lemma {:induction false} TaskWithFeedbackNeverReturns(h: seq<Turn>, io: Io, tx: Texts, fuel: nat)
    ensures var r := TaskWithFeedback(h, io, tx, fuel);
      r.status.Raised? && r.status.cause != UnboundName &&
      |h| <= |r.history| && r.history[..|h|] == h &&
      (r.status.cause == RecursionLimit ==> Roles(r.history) == Roles(h) + Repeat(LEVEL_ROLES, fuel)) &&
      (r.status.cause == TranscriberFailed ==> |r.history| < |h| + 11 * fuel)
    decreases fuel
  {
    var r := TaskWithFeedback(h, io, tx, fuel);
    if fuel == 0 {
      assert Roles(h) + Repeat(LEVEL_ROLES, 0) == Roles(h);
    } else {
      var level := Level(h, io, tx);
      LevelShape(h, io, tx);
      if level.status.Normal? {
        TaskWithFeedbackNeverReturns(level.history, io, tx, fuel - 1);
        var inner := TaskWithFeedback(level.history, io, tx, fuel - 1);
        NestedShapeFrom(h, level.history, inner.history, fuel, inner.status.cause == RecursionLimit);
      }
    }
  }

  /**
   * `process_voice()` never returns either: the closing stage of lines 198-206 is
   * unreachable. Reaching the recursion limit leaves the ten opening entries,
   * alternating assistant and user, followed by `fuel` whole levels.
   */
  lemma ProcessVoiceNeverReturns(h: seq<Turn>, io: Io, tx: Texts, fuel: nat)
    ensures var r := ProcessVoice(h, io, tx, fuel);
      r.status.Raised? && r.status.cause != UnboundName &&
      |h| <= |r.history| && r.history[..|h|] == h &&
      (r.status.cause == RecursionLimit ==> Roles(r.history) == Roles(h) + OPENING_ROLES + Repeat(LEVEL_ROLES, fuel))
  {
    var steps := OpeningSteps(tx);
    assert WellFormed(steps, 0);
    RunStagesShape(h, io, tx, steps, []);
    var opening := RunStages(h, io, tx, steps, []);
    if opening.status.Normal? {
      TaskWithFeedbackNeverReturns(opening.history, io, tx, fuel);
      PrefixTrans(h, opening.history, TaskWithFeedback(opening.history, io, tx, fuel).history);
    }
  }

  /** The i-th stage of a `LoggedAll` run is logged two entries per stage further on. */
  lemma {:induction false} LoggedAt(hist: seq<Turn>, at: nat, io: Io, tx: Texts, steps: seq<Step>, heard: seq<Heard>, k: nat, i: nat)
    requires at + 2 * |steps| <= |hist| && k + |steps| <= |heard| && WellFormed(steps, k)
    requires LoggedAll(hist, at, io, tx, steps, heard, k)
    requires i < |steps|
    ensures Logged(hist, at + 2 * i, io, tx, steps[i], heard, k + i)
    decreases i
  {
    if i > 0 {
      WellFormedTail(steps, k);
      LoggedAt(hist, at + 2, io, tx, steps[1..], heard, k + 1, i - 1);
      assert steps[1..][i - 1] == steps[i];
    }
  }

  /**
   * The opening of `process_voice` (lines 180-193), when every listen succeeds:
   * ten entries, and the greeting, emotion-recognition, role-swap and scenario
   * replies are prompted with "neutral".
   */
  lemma OpeningPrompts(h: seq<Turn>, io: Io, tx: Texts)
    ensures var r := RunStages(h, io, tx, OpeningSteps(tx), []);
      r.status.Normal? ==>
        |r.history| == |h| + 10 &&
        RepliedTo(r.history, |h|, io, tx, tx.greeting, NEUTRAL) &&
        RepliedTo(r.history, |h| + 2, io, tx, tx.emotionRecognition, NEUTRAL) &&
        RepliedTo(r.history, |h| + 6, io, tx, tx.roleSwapping, NEUTRAL) &&
        RepliedTo(r.history, |h| + 8, io, tx, tx.scenarioBased, NEUTRAL)
  {
    var steps := OpeningSteps(tx);
    assert WellFormed(steps, 0);
    RunStagesLogged(h, io, tx, steps, []);
    var r := RunStages(h, io, tx, steps, []);
    if r.status.Normal? {
      LoggedAt(r.history, |h|, io, tx, steps, r.status.value, 0, 0);
      LoggedAt(r.history, |h|, io, tx, steps, r.status.value, 0, 1);
      LoggedAt(r.history, |h|, io, tx, steps, r.status.value, 0, 3);
      LoggedAt(r.history, |h|, io, tx, steps, r.status.value, 0, 4);
    }
  }

  /**
   * In the opening of `process_voice` (lines 183-186), the adaptive reply is
   * prompted with the label heard right after the emotion-recognition stage, on
   * the clip recorded after three entries.
   */
  lemma OpeningAdaptivePrompt(h: seq<Turn>, io: Io, tx: Texts)
    ensures var r := RunStages(h, io, tx, OpeningSteps(tx), []);
      r.status.Normal? ==>
        |r.history| == |h| + 10 &&
        io.hear(io.capture(|h| + 3)).Some? &&
        RepliedTo(r.history, |h| + 4, io, tx, tx.adaptiveDialogue, io.hear(io.capture(|h| + 3)).value.emotion.name)
  {
    var steps := OpeningSteps(tx);
    assert WellFormed(steps, 0);
    RunStagesLogged(h, io, tx, steps, []);
    var r := RunStages(h, io, tx, steps, []);
    if r.status.Normal? {
      LoggedAt(r.history, |h|, io, tx, steps, r.status.value, 0, 1);
      LoggedAt(r.history, |h|, io, tx, steps, r.status.value, 0, 2);
    }
  }

  /**
   * One nested level (lines 130-156), when every listen succeeds: eleven
   * entries, and the task reply and every stage but the adaptive one are
   * prompted with "neutral".
   */
  lemma LevelPrompts(h: seq<Turn>, io: Io, tx: Texts)
    ensures var r := Level(h, io, tx);
      r.status.Normal? ==>
        |r.history| == |h| + 11 &&
        RepliedTo(r.history, |h|, io, tx, tx.taskWithFeedback, NEUTRAL) &&
        RepliedTo(r.history, |h| + 1, io, tx, tx.greeting, NEUTRAL) &&
        RepliedTo(r.history, |h| + 3, io, tx, tx.emotionRecognition, NEUTRAL) &&
        RepliedTo(r.history, |h| + 7, io, tx, tx.roleSwapping, NEUTRAL) &&
        RepliedTo(r.history, |h| + 9, io, tx, tx.scenarioBased, NEUTRAL)
  {
    var a := Turn(ASSISTANT, io.reply(h, tx.taskWithFeedback, NEUTRAL, tx.role));
    var steps := LevelSteps(tx);
    assert WellFormed(steps, 0);
    RunStagesLogged(h + [a], io, tx, steps, []);
    RunStagesShape(h + [a], io, tx, steps, []);
    var r := RunStages(h + [a], io, tx, steps, []);
    if r.status.Normal? {
      PrefixOfPrefix(r.history, h, [a]);
      assert r.history[|h|] == (h + [a])[|h|];
      LoggedAt(r.history, |h| + 1, io, tx, steps, r.status.value, 0, 0);
      LoggedAt(r.history, |h| + 1, io, tx, steps, r.status.value, 0, 1);
      LoggedAt(r.history, |h| + 1, io, tx, steps, r.status.value, 0, 3);
      LoggedAt(r.history, |h| + 1, io, tx, steps, r.status.value, 0, 4);
    }
  }

  /**
   * In a nested level (lines 140, 147), the adaptive reply is prompted with the
   * label heard right after the greeting, on the clip recorded after two
   * entries of the level, not with the label of the stage before it.
   */
  lemma LevelAdaptivePrompt(h: seq<Turn>, io: Io, tx: Texts)
    ensures var r := Level(h, io, tx);
      r.status.Normal? ==>
        |r.history| == |h| + 11 &&
        io.hear(io.capture(|h| + 2)).Some? &&
        RepliedTo(r.history, |h| + 5, io, tx, tx.adaptiveDialogue, io.hear(io.capture(|h| + 2)).value.emotion.name)
  {
    var a := Turn(ASSISTANT, io.reply(h, tx.taskWithFeedback, NEUTRAL, tx.role));
    var steps := LevelSteps(tx);
    assert WellFormed(steps, 0);
    RunStagesLogged(h + [a], io, tx, steps, []);
    var r := RunStages(h + [a], io, tx, steps, []);
    if r.status.Normal? {
      LoggedAt(r.history, |h| + 1, io, tx, steps, r.status.value, 0, 0);
      LoggedAt(r.history, |h| + 1, io, tx, steps, r.status.value, 0, 2);
    }
  }
}
