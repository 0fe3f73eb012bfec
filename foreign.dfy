/** The calls the pipeline makes into code it does not own, as oracles passed
    in by the caller: the chat-completion client, `json.loads`, `json.dumps`
    and `str()` of a list or dict. */
module Foreign {
  import opened PyValues

  /** What the chat-completion call yields: the message content, a message
      whose content is None, or a raised client error with its text. */
  datatype Reply = Content(text: string) | NoContent | Failure(message: string)

  datatype Services = Services(
    /** The reply to the k-th call of a run (k counts from 0), given the model
        name, the system prompt and the user prompt. */
    complete: (nat, string, string, string) -> Reply,
    /** `json.loads`; None stands for a JSONDecodeError. */
    parseJson: string -> Option<Value>,
    /** `json.dumps` */
    dumpsJson: Value -> string,
    /** `str()` of a list or a dict. */
    showContainer: Value -> string)

  /** `str(v)` of any value. */
  function ToStr(svc: Services, v: Value): (s: string)
    ensures v.Str? ==> s == v.s
  {
    if IsScalar(v) then ScalarStr(v) else svc.showContainer(v)
  }
}
