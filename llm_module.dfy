/**
 * The client side of the language-model backend: a prompt is wrapped into a
 * two-message chat, posted as `{"messages": ...}`, and the reply is picked
 * out of the JSON answer. No failure escapes: every error becomes a sentinel.
 */
module Llm {
  import opened Http

  datatype Message = Message(role: string, content: string)

  /** The JSON body `{"messages": messages}`. */
  datatype Payload = Payload(messages: seq<Message>)

  /** A decoded JSON answer: an object with its string fields, or any other JSON value. */
  datatype ReplyJson = ReplyObject(fields: map<string, string>) | ReplyNotObject

  /** The backend, as the answer it gives to each posted payload. */
  type Backend = Payload -> Outcome<ReplyJson>

  const SYSTEM_PERSONA := "You are an empathetic conversational agent."
  const NO_REPLY := "[No reply]"
  const LLM_UNAVAILABLE := "[LLM unavailable]"

  /**
   * The selection rule of `get_llm_reply`: the "reply" field of a JSON object,
   * "[No reply]" for an object without it, and "[LLM unavailable]" when the post,
   * the status check or the decoding raised, or when `.get` is applied to a
   * decoded value that is not an object.
   */
  predicate IsReplyTo(answer: Outcome<ReplyJson>, r: string)
    ensures IsReplyTo(answer, r) && r != NO_REPLY && r != LLM_UNAVAILABLE ==>
      answer.Decoded? && answer.body.ReplyObject? && "reply" in answer.body.fields && answer.body.fields["reply"] == r
    ensures !(answer.Decoded? && answer.body.ReplyObject?) ==> (IsReplyTo(answer, r) <==> r == LLM_UNAVAILABLE)
  {
    if answer.Decoded? && answer.body.ReplyObject? then
      if "reply" in answer.body.fields then r == answer.body.fields["reply"] else r == NO_REPLY
    else
      r == LLM_UNAVAILABLE
  }

  /** `get_llm_reply(messages)`: posts the messages unchanged and never raises. */
  function GetLlmReply(messages: seq<Message>, backend: Backend): (r: string)
    ensures IsReplyTo(backend(Payload(messages)), r)
  {
    match backend(Payload(messages))
    case Decoded(ReplyObject(fields)) => if "reply" in fields then fields["reply"] else NO_REPLY
    case _ => LLM_UNAVAILABLE
  }

  /** "[LLM unavailable]" means the exchange failed, unless the backend itself replied with that text. */
  lemma UnavailableMeansFailure(messages: seq<Message>, backend: Backend)
    requires var answer := backend(Payload(messages));
      !(answer.Decoded? && answer.body.ReplyObject? && "reply" in answer.body.fields
        && answer.body.fields["reply"] == LLM_UNAVAILABLE)
    ensures var answer := backend(Payload(messages));
      GetLlmReply(messages, backend) == LLM_UNAVAILABLE <==> !(answer.Decoded? && answer.body.ReplyObject?)
  {
  }

  /** The chat built around a prompt: the fixed system persona, then the prompt verbatim as the user turn. */
  function ChatMessages(prompt: string): (m: seq<Message>)
    ensures |m| == 2
    ensures m[0].role == "system" && m[0].content == SYSTEM_PERSONA
    ensures m[1].role == "user" && m[1].content == prompt
  {
    [Message("system", SYSTEM_PERSONA), Message("user", prompt)]
  }

  /** `generate_response(prompt)`: the reply the backend gives to exactly the two-message chat. */
  function GenerateResponse(prompt: string, backend: Backend): (r: string)
    ensures IsReplyTo(backend(Payload(ChatMessages(prompt))), r)
  {
    GetLlmReply(ChatMessages(prompt), backend)
  }
}
