/**
 * The shapes exchanged with the live model: a function call (id, tool name,
 * arguments), the response built for it, and what happens to a batch.
 */
module ToolProtocol {
  import opened Wrappers
  import opened Payload

  /** A tool call; argument values are the strings the tools declare. */
  datatype FunctionCall = FunctionCall(id: string, name: string, args: map<string, string>)

  /** `FunctionResponse(id, name, response)`. */
  datatype FunctionResponse = FunctionResponse(id: string, name: string, response: map<string, Json>)

  /**
   * The end of one batch: the responses were sent together, nothing was
   * sent because there was nothing to answer, or an exception escaped the
   * handler before anything was sent.
   */
  datatype BatchOutcome = Sent(responses: seq<FunctionResponse>) | NothingSent | Raised(error: string)

  /** `args.get(key, default)`. */
  function Arg(call: FunctionCall, key: string, default: string): (v: string)
    ensures key in call.args ==> v == call.args[key]
    ensures key !in call.args ==> v == default
  {
    if key in call.args then call.args[key] else default
  }

  /** Every response answers the call at the same position, echoing its id and name. */
  predicate Answers(calls: seq<FunctionCall>, responses: seq<FunctionResponse>) {
    |responses| == |calls| &&
    forall i :: 0 <= i < |calls| ==> responses[i].id == calls[i].id && responses[i].name == calls[i].name
  }

  /** A batch is sent once, and only when it holds at least one response. */
  function Deliver(responses: seq<FunctionResponse>): (o: BatchOutcome)
    ensures o.Sent? <==> responses != []
    ensures o.Sent? ==> o.responses == responses
    ensures !o.Raised?
  {
    if responses != [] then Sent(responses) else NothingSent
  }
}
