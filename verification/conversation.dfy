/**
 * The conversation log and the generated-reply adapter both coaches share
 * (`add_message` and `get_creative_response`). The text-completion service is a
 * parameter: given the request messages it yields a text, or `None` when the call fails.
 */
module Conversation {
  import opened Wrappers

  datatype Role = System | User | Assistant

  /** One logged message; the timestamp `add_message` also stores is not modelled. */
  datatype Turn = Turn(role: Role, content: string)

  /** The external completion call: request messages in, text or failure out. */
  type Completion = seq<Turn> -> Option<string>

  const Apology: string := "I apologize, but I'm having trouble responding right now. Could you please try again?"

  /** The request sent to the service: the system prompt, then the whole log in order. */
  function Request(systemPrompt: string, history: seq<Turn>): seq<Turn> {
    [Turn(System, systemPrompt)] + history
  }

  /** New log and reply text produced by `get_creative_response`. */
  datatype Generated = Generated(history: seq<Turn>, text: string)

  /**
   * `get_creative_response`: logs the user turn, asks the service with the system prompt and
   * the log so far (the new user turn included), logs its answer -- or the fixed apology
   * when the call fails -- as the assistant turn, and returns that same text.
   */
  function GetCreativeResponse(systemPrompt: string, history: seq<Turn>, msg: string, complete: Completion): (r: Generated)
    ensures r.history == history + [Turn(User, msg), Turn(Assistant, r.text)]
    ensures complete(Request(systemPrompt, history + [Turn(User, msg)])).None? ==> r.text == Apology
    ensures complete(Request(systemPrompt, history + [Turn(User, msg)])).Some? ==>
              r.text == complete(Request(systemPrompt, history + [Turn(User, msg)])).value
  {
    var logged := history + [Turn(User, msg)];
    var answer := match complete(Request(systemPrompt, logged))
      case Some(text) => text
      case None => Apology;
    Generated(logged + [Turn(Assistant, answer)], answer)
  }

  /** The request ends with the user's new message, so the service always sees it. */
  lemma RequestEndsWithUserTurn(systemPrompt: string, history: seq<Turn>, msg: string)
    ensures var req := Request(systemPrompt, history + [Turn(User, msg)]);
            |req| == |history| + 2 && req[0] == Turn(System, systemPrompt)
            && req[1..|req| - 1] == history && req[|req| - 1] == Turn(User, msg)
  {
  }
}
