/** The parameter store as the export sees it: one batch request, one reply. */
module Ssm {
  import opened Wrappers

  /** A resolved parameter: its hierarchical name and its (decrypted) value. */
  datatype Parameter = Parameter(name: string, value: string)

  /**
   * A successful `getParameters` response. Either list may be absent from the
   * response object, which `None` stands for.
   */
  datatype Response = Response(parameters: Option<seq<Parameter>>, invalidParameters: Option<seq<string>>)

  /** The store's answer to a request: a transport error, or a response. */
  datatype Reply = TransportError(fault: string) | Ok(response: Response)

  /** The parameters to materialise; iterating an absent list visits nothing. */
  function ParameterList(response: Response): seq<Parameter> {
    response.parameters.GetOr([])
  }

  /** lodash `_.isEmpty` on the `InvalidParameters` field: absent or an empty list. */
  predicate NoInvalidParameters(response: Response) {
    response.invalidParameters.None? || response.invalidParameters.value == []
  }

  /**
   * The remote store, injected instead of constructed from ambient credentials.
   * `respond` fixes its answer to every request; `requests` logs the requests
   * made so far, in order.
   */
  class ParameterStore {
    const respond: seq<string> -> Reply
    var requests: seq<seq<string>>

    constructor (respond: seq<string> -> Reply)
      ensures this.respond == respond && requests == []
    {
      this.respond := respond;
      requests := [];
    }

    /** `ssm.getParameters({Names: names, WithDecryption: true})`. */
    method GetParameters(names: seq<string>) returns (reply: Reply)
      modifies this
      ensures reply == respond(names)
      ensures requests == old(requests) + [names]
    {
      requests := requests + [names];
      reply := respond(names);
    }
  }
}
