# Voice session orchestration, modelled in Dafny

This project models the turn-orchestration layer of a voice-driven,
emotion-aware conversation agent. It also models the two small deterministic
pieces next to that layer: the language-model client and the speech-emotion
(SER) endpoint.

- `voice_module.py` keeps a module-level `conversation_history`.
  - Every listen (`log_and_listen`) appends one user entry.
  - Every reply (`directional_response`) appends one assistant entry.
  - A scripted session (`process_voice`) runs a greeting and four activities, each a reply followed by a listen.
  - Speech-to-text (`run_stt`) retries once on a CUDA out-of-memory error.
  - The SER client (`run_ser`) falls back to `("neutral", 0.0)`.
- `llm_module.py` wraps a prompt into a two-message chat. It picks the reply out of the JSON answer, with two sentinels for the failure cases.
- `ser_server.py` brings the clip to 16 kHz when needed and answers the first highest-scoring label.

Every collaborator is a parameter given as the outcome it produces:
- Whisper: segments, a `RuntimeError` with its message, or another error.
- The two HTTP endpoints: a failed post, a failed status check, undecodable JSON, or a decoded body.
- The microphone: a clip per capture.

## How the files are organised

- `common.dfy`: `Option`, the HTTP outcome, and the constants of `config.py` that the code reads.
- `pystr.dfy`: the Python string operations the code relies on: `strip`, `"".join`, `"\n".join`, ASCII `upper`, and `in`.
  - It also defines `split` on one character. The code never calls `split`; it serves only to state that the history digest splits back into its lines.
- `voice_module.dfy` (module `Voice`): the pure parts of `voice_module.py`.
  - `run_stt`, `run_ser`.
  - The history digest and the prompt.
  - The reply a backend gives to that prompt.
- `llm_module.dfy` (module `Llm`) and `ser_server.dfy` (module `SerServer`): the other two source files.
- `script.dfy` (module `Script`): the session as functions of the history before each step.
  - These functions abstract over an `Io` value: how clips are recorded, how a clip is heard, and how a reply is obtained.
  - `SessionIo` wires in the functions of module `Voice`, the way the source does.
  - The lemmas prove the shape of every run and which emotion label each prompt carries.
- `session.dfy` (module `Session`): the class `VoiceSession`.
  - Its `history` field is `conversation_history`.
  - It has one method per function of `voice_module.py` that appends to it.
  - `NestedStages` is the block of lines 138-156 that runs inside `activity_task_with_feedback`, kept as its own method.
  - Each method's postcondition ties it to the matching function of `Script`.

### The indentation of `activity_task_with_feedback`

At voice_module.py:133 the line `#def process_voice():` is only a comment, so it does not end the body of `activity_task_with_feedback`. Lines 136-170 therefore belong to that function.

Each call of `activity_task_with_feedback`:
1. replies to the task direction (line 130);
2. runs the greeting, probe, adaptive, role-swap and scenario stages, one reply and one listen each (lines 139-156);
3. calls itself (line 159).

So each level logs 11 entries: 6 assistant and 5 user.

The model reproduces this, with `fuel` standing for Python's recursion limit. `fuel` counts only the calls of `activity_task_with_feedback`, and a recorded clip is always delivered. Under those two assumptions the model proves:
- neither `activity_task_with_feedback` nor `process_voice` ever returns: each run ends by a transcription failure or, when the fuel runs out, at the recursion limit;
- the closing stage of `process_voice` (line 198) is never reached.

Lines 160-170 are still modelled. They would run only if the recursive call returned, and they end in a `NameError` on the unbound `transcript`.

### Transcription failures

`run_stt` turns only some failures into a value:
- A `RuntimeError` whose message does not contain "CUDA out of memory" gives the sentinel `"[STT error]"`.
- Any other exception escapes: one that is not a `RuntimeError`, and any failure of the fallback model after an out-of-memory error. `log_and_listen` does not catch it, so it ends the session; the model ends the run with `TranscriberFailed`.
- The fallback model is built anew on every retry (line 39). Nothing the model observes depends on that.

## Model

| member | source | states |
|---|---|---|
| `Voice.Request` | voice_module.py:29-33 | each transcription request carries the clip unchanged, the configured language and a beam size of at least 1 and at least the configured one |
| `Voice.BeamSize` | voice_module.py:32 | `max(1, BEAM_SIZE)` is at least 1 and at least the configured value, and equals one of the two |
| `Voice.TranscriptOf` | voice_module.py:34-35 | the transcript is the stripped concatenation of the segment texts when that is non-empty, and otherwise the silence sentinel; it is never empty and never starts or ends with whitespace |
| `Voice.RunStt` | voice_module.py:27-49 | the first request goes to `small.en` with beam size at least 1. Exactly one retry, to `medium.en` on the same audio, happens if and only if the first attempt raised a RuntimeError whose message contains "CUDA out of memory". Segments give `TranscriptOf` of their texts. Any other RuntimeError gives `"[STT error]"`. An exception escapes if and only if the first attempt raised a non-RuntimeError or the retry did not give segments. A returned transcript is never empty |
| `Voice.RunSer` | voice_module.py:51-69 | the server's `(emotion, confidence)` when the answer is a JSON object holding both fields, and exactly `("neutral", 0.0)` on every failure: the post, the status check, the decoding, or a missing key |
| `Voice.Line` | voice_module.py:91 | an entry's line is its role in capitals, `": "`, then its content verbatim. It holds a newline exactly when the role or the content does |
| `Voice.HistoryText` | voice_module.py:91 | the digest is empty exactly when the history is. Otherwise it opens with the oldest entry's line and closes with the newest entry's |
| `Voice.RoleLines` | voice_module.py:91 | the roles are upper-cased in the digest: `USER: …`, `ASSISTANT: …` |
| `Voice.HistoryTextAppend` | voice_module.py:91 | appending one entry to the history appends exactly its `ROLE: content` line, after a newline unless the history was empty |
| `Voice.HistoryTextLines` | voice_module.py:91 | when no entry contains a newline, splitting the digest on newlines gives back one `ROLE: content` line per entry, in insertion order |
| `Voice.Prompt` | voice_module.py:93-108 | the prompt opens with the template's opening and the role, and closes with the history digest followed by the template's tail; `PROMPT_TEMPLATE` holds the source's text |
| `Voice.PromptEmbeds` | voice_module.py:93-108 | the prompt contains the role, the emotion label, the direction and the history digest, each verbatim |
| `Voice.PromptDeterminesHistory` | voice_module.py:93-108 | with role, label and direction fixed, two equal prompts come from the same history digest |
| `Voice.Reply` | voice_module.py:89-110 | the reply is what `get_llm_reply` selects from the backend's answer to the two-message chat around the prompt built from the history before the reply |
| `PyStr.LeadingSpace` | voice_module.py:34 | the count of leading characters that `strip()` drops: all of them are whitespace and the next one is not |
| `PyStr.TrailingSpace` | voice_module.py:34 | the count of trailing characters that `strip()` drops: all of them are whitespace and the one before them is not |
| `PyStr.Strip` | voice_module.py:34 | `str.strip()` is the slice `s[i..j]` of the input with only whitespace outside it, where `i` counts the leading whitespace. It starts and ends with a non-space when it is not empty |
| `PyStr.StripEmpty` | voice_module.py:34-35 | the stripped text is empty exactly when the input is all whitespace, which is when `run_stt` answers the silence sentinel |
| `PyStr.StripIdempotent` | voice_module.py:34 | stripping a stripped transcript changes nothing |
| `PyStr.Concat` | voice_module.py:34 | `"".join` of the segment texts is empty exactly when every text is |
| `PyStr.JoinEnds` | voice_module.py:91 | `"\n".join` of no lines is empty; otherwise the result starts with the first line and ends with the last |
| `PyStr.JoinAppend` | voice_module.py:91 | joining one more line adds exactly one separator and that line at the end |
| `PyStr.Upper` | voice_module.py:91 | `upper()` keeps the length and changes exactly the lower-case ASCII letters, each to its capital |
| `PyStr.Contains` | voice_module.py:37 | `sub in s` holds exactly when `sub` occurs at some position of `s` |
| `PyStr.SplitJoin` | voice_module.py:91 | splitting a newline-join on newlines gives back the parts when none contains a newline |
| `Llm.IsReplyTo` | llm_module.py:13-18 | the selection rule: a reply other than the two sentinels is the `"reply"` field of a decoded JSON object, and any answer that is not a decoded object selects exactly `"[LLM unavailable]"` |
| `Llm.GetLlmReply` | llm_module.py:5-18 | posts `{"messages": messages}` with the list unchanged. Returns the `"reply"` field of a JSON object, `"[No reply]"` for an object without it, and `"[LLM unavailable]"` when the post, the status check or the decoding fails. It never raises |
| `Llm.UnavailableMeansFailure` | llm_module.py:11-18 | unless the backend itself replied `"[LLM unavailable]"`, that text is returned if and only if the exchange failed |
| `Llm.ChatMessages` | llm_module.py:26-27 | exactly two messages: the fixed system persona, then the prompt verbatim as the user message |
| `Llm.GenerateResponse` | llm_module.py:22-28 | the reply `get_llm_reply` selects for exactly the two-message chat around the prompt |
| `SerServer.Normalise` | ser_server.py:20-22 | the rate is 16000 afterwards. The audio is left untouched if and only if it already was at 16000, and is otherwise resampled from its rate to 16000 |
| `SerServer.ResampledIsNew` | ser_server.py:21 | resampled audio is never the audio it came from |
| `SerServer.TopIndex` | ser_server.py:26 | `max` by score: the selected entry's score is at least every score, and every earlier entry scores strictly less, so the first maximum wins |
| `SerServer.Ser` | ser_server.py:16-32 | the handler fails if and only if the classifier returns no results. Otherwise `raw` is the results list unchanged, and `emotion` and `confidence` are the label and score of the first maximum |
| `SerServer.SerAnswersFirstMaximum` | ser_server.py:26-32 | the answered pair is an entry of `raw` whose score is at least every score, with no earlier entry reaching it |
| `Script.Listened` | voice_module.py:76-78 | a clip is heard if and only if `run_stt` does not raise. The transcript is then `run_stt`'s non-empty text and the emotion is `run_ser`'s pair for the same clip |
| `Script.ListenLogs` | voice_module.py:71-87 | `Script.Listen` raises exactly when hearing the clip recorded at that point fails, and then logs nothing. Otherwise it logs one user entry, the transcript of the value it returns, which is what was heard on that clip |
| `Script.SayLogs` | voice_module.py:89-114 | `Script.Say` keeps the history and logs one assistant entry: the reply obtained for that history, direction and label |
| `Script.SessionListen` | voice_module.py:71-87 | with the source's collaborators, a listen appends exactly one user entry holding `run_stt`'s transcript and returns that transcript with `run_ser`'s pair. When `run_stt` raises, nothing is logged |
| `Script.SessionSay` | voice_module.py:89-114 | with the source's collaborators, a reply appends exactly one assistant entry. Its content is the backend's reply to the chat whose prompt embeds the direction, the label and the digest of the history before it |
| `Script.RunStages` | voice_module.py:139-156 | a run of stages only appends. When every listen succeeds it adds two entries and one heard value per stage; a raise comes only from the transcriber, before two entries per stage were added |
| `Script.Level` | voice_module.py:130-156 | one level only appends, and at least the task reply; it raises only when the transcriber fails |
| `Script.TaskWithFeedback` | voice_module.py:129-170 | `activity_task_with_feedback` only appends to the history, and with no fuel left it stops at the recursion limit |
| `Script.ProcessVoice` | voice_module.py:173-206 | `process_voice` only appends to the history |
| `Script.StageStep` | voice_module.py:139-156 | after one stage's reply and listen, a run of stages in progress either has ended, raised, with the history that listen left, or goes on with the remaining stages from that history and one more heard value |
| `Script.RunStagesShape` | voice_module.py:139-156 | a run of stages only appends. When every listen succeeds, each stage adds one assistant and one user entry and yields one heard value. Otherwise the run ended by the transcriber raising right after some stage's reply |
| `Script.RunStagesLogged` | voice_module.py:139-156 | when every listen succeeds, the history holds, for each stage in order, the reply to the prompt built from the entries before it, then the transcript heard on the clip recorded at that point |
| `Script.LevelShape` | voice_module.py:130-156 | one level appends 11 entries, an assistant reply and then five assistant/user pairs, unless a listen raises, in which case fewer than 11 were appended |
| `Script.LevelPrompts` | voice_module.py:130-156 | when every listen of a level succeeds, it logs 11 entries. The task, greeting, probe, role-swap and scenario replies are each the reply to the prompt with "neutral" built from the entries before them |
| `Script.LevelAdaptivePrompt` | voice_module.py:140-147 | in a level, the adaptive reply is prompted with the label heard right after the greeting (line 140), not with the label of the stage just before it |
| `Script.OpeningPrompts` | voice_module.py:176-193 | when every listen of the opening of `process_voice` succeeds, it logs 10 entries. The greeting, emotion-recognition, role-swap and scenario replies are each the reply to the prompt with "neutral" built from the entries before them |
| `Script.OpeningAdaptivePrompt` | voice_module.py:184-186 | in the opening of `process_voice`, the adaptive reply is prompted with the label heard right after the emotion-recognition stage |
| `Script.TaskWithFeedbackNeverReturns` | voice_module.py:129-170 | `activity_task_with_feedback` always raises, by a failed transcription or at the recursion limit when the fuel runs out, never at the NameError of line 166, and only appends. At the recursion limit the history holds `fuel` whole 11-entry levels. A failed transcription leaves fewer than 11 entries per level allowed |
| `Script.ProcessVoiceNeverReturns` | voice_module.py:173-206 | `process_voice` always raises, by a failed transcription or at the recursion limit when the fuel runs out, so its closing stage and return dict are unreachable. At the recursion limit the history holds the ten opening entries, alternating assistant and user, then `fuel` whole levels |
| `Session.VoiceSession.constructor` | voice_module.py:15 | the history starts empty, and the session uses the source's texts and the source's collaborators |
| `Session.VoiceSession.Speak` | llm_module.py:30-34 | `speak` leaves the session unchanged |
| `Session.VoiceSession.LogAndListen` | voice_module.py:71-87 | the new history and the returned value are those of `Script.Listen` on the old history |
| `Session.VoiceSession.DirectionalResponse` | voice_module.py:89-114 | returns the reply to the prompt built from the old history, and appends exactly that reply as one assistant entry |
| `Session.VoiceSession.ActivityEmotionRecognition` | voice_module.py:117-118 | appends the reply to the emotion-recognition direction, prompted with "neutral" |
| `Session.VoiceSession.ActivityAdaptiveDialogue` | voice_module.py:120-121 | appends the reply to the adaptive-dialogue direction, prompted with the given label |
| `Session.VoiceSession.ActivityRoleSwapping` | voice_module.py:123-124 | appends the reply to the role-swap direction, prompted with "neutral" |
| `Session.VoiceSession.ActivityScenarioBased` | voice_module.py:126-127 | appends the reply to the scenario direction, prompted with "neutral" |
| `Session.VoiceSession.NestedStages` | voice_module.py:138-156 | the new history and the outcome are those of the five nested stages run from the old history, the adaptive one prompted with the greeting's label |
| `Session.VoiceSession.ActivityTaskWithFeedback` | voice_module.py:129-170 | the new history and the outcome are those of `Script.TaskWithFeedback`, which never returns |
| `Session.VoiceSession.ProcessVoice` | voice_module.py:173-206 | the new history and the outcome are those of `Script.ProcessVoice`, which never returns |

## Left out

- Audio capture: `input()` and `sounddevice` recording (voice_module.py:18-25) are device I/O. A clip is an opaque value supplied by `capture(n)`, the clip recorded when `n` entries have been logged.
- `capture(n)` never fails. An `EOFError` or `KeyboardInterrupt` out of `input()` (line 19) or a device error out of `sd.rec` (line 21) would end the session with an exception that has no `Cause` in the model.
- Whisper inference (voice_module.py:13, 29, 39) and the HuggingFace classifier (ser_server.py:9-13, 25) are foreign models. Only their outcomes are modelled.
- HTTP transport (`requests.post`, FastAPI routing) is modelled only as the outcome of the post, the status check and the decoding.
- WAV serialisation with `soundfile` (voice_module.py:57-59; ser_server.py:18) is not modelled. `sf.write` sits outside the `try` in `run_ser`, so its failures would propagate; the model assumes it succeeds.
- `librosa.resample` (ser_server.py:21) is floating-point signal processing. It is recorded as a `Resampled` value, not computed.
- Console `print` logging and the formatting of the confidence (voice_module.py:83-84, 111) have no effect on the state.
- `str.upper()` is modelled for ASCII letters only. The roles it is applied to are the literals `user` and `assistant`.
- The JSON fields `reply`, `emotion` and `confidence` are modelled with the types the code uses them as: a string, and a string and a real. Other JSON types in those fields are not modelled.
- Python's recursion limit is the `fuel` parameter. `decreases *` is not used, so a run that never stops cannot be stated other than through fuel.
- `fuel` bounds only the calls of `activity_task_with_feedback`. A `RecursionError` raised deeper, in the calls each level makes, is not modelled. `get_llm_reply` would catch it and answer `"[LLM unavailable]"` (llm_module.py:16), `run_ser` would catch it and answer `("neutral", 0.0)` (voice_module.py:67), `run_stt` would catch it as a `RuntimeError` and answer `"[STT error]"` (voice_module.py:36), and one raised in `sd.rec` (line 21) or `sf.write` (line 58) would escape.
- `llm_server.py`, `llm_server_api.py`, `tts_module.py`, `main.py` and `config.py` are not part of this model, apart from the constants `LANGUAGE` and `BEAM_SIZE`.
- The language-model URL (`EXT_API_URL`, which `config.py` does not define) is abstracted into the backend parameter, as is the SER URL.
