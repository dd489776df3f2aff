/**
 * The chat-completion boundary shared by ResumeGPT/process.py and
 * ResumeGPT/ChatGPT_Pipeline.py: requests, responses, the provider's errors,
 * decoded JSON values, and a provider that answers from a finite script.
 * The provider and the JSON decoder are oracles: nothing here interprets a
 * prompt or parses JSON text.
 */
module ChatApi {
  import opened Wrappers

  /** A decoded JSON value. `JNull` is Python's None. */
  datatype Json =
    | JNull
    | JBool(b: bool)
    | JNumber(n: int)
    | JString(s: string)
    | JArray(items: seq<Json>)
    | JObject(members: seq<(string, Json)>)

  /** The JSON decoder (`json.loads`): a value, or None for a decode error. */
  type Decoder = string -> Option<Json>

  datatype Role = System | User

  datatype Message = Message(role: Role, content: string)

  /** The parameters of one `openai.ChatCompletion.create` call. */
  datatype Request = Request(model: string, messages: seq<Message>, temperature: real)

  /** One element of `response["choices"]`; `content` is None when it lacks `message.content`. */
  datatype Choice = Choice(content: Option<string>)

  /** A provider response; `choices` is None when the response has no `choices` key. */
  datatype Response = Response(choices: Option<seq<Choice>>)

  /** The exceptions the provider can raise. */
  datatype ApiError = InvalidRequestError(message: string) | OtherApiError(kind: string)

  /** What one call to the provider produces. */
  datatype Outcome = Answered(response: Response) | Raised(error: ApiError)

  /** The two-message request: the prompt as system message, the resume text as user message. */
  function ChatRequest(model: string, prompt: string, content: string, temperature: real): Request {
    Request(model, [Message(System, prompt), Message(User, content)], temperature)
  }

  /** `'choices' in response and len(response.choices) > 0`. */
  predicate HasChoices(response: Response) {
    response.choices.Some? && response.choices.value != []
  }

  /** `response["choices"][0]["message"]["content"]`, when every step of it exists. */
  function FirstContent(response: Response): (content: Option<string>)
    ensures content.Some? ==> HasChoices(response)
  {
    if HasChoices(response) then response.choices.value[0].content else None
  }

  /**
   * The provider as a finite script of outcomes, consumed one per call, with
   * the log of the requests it has answered.
   */
  class ScriptedProvider {
    var script: seq<Outcome>
    var sent: seq<Request>

    constructor (script: seq<Outcome>)
      ensures this.script == script && sent == []
    {
      this.script := script;
      sent := [];
    }

    /** One call; None once the script is used up, in which case nothing is recorded. */
    method Create(request: Request) returns (outcome: Option<Outcome>)
      modifies this
      ensures old(script) == [] ==> outcome == None && script == [] && sent == old(sent)
      ensures old(script) != [] ==>
        && outcome == Some(old(script)[0])
        && script == old(script)[1..]
        && sent == old(sent) + [request]
    {
      if script == [] {
        outcome := None;
      } else {
        outcome := Some(script[0]);
        script := script[1..];
        sent := sent + [request];
      }
    }
  }
}
