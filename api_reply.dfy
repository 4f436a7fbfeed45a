/**
 * What the `host.create` call hands back and how the provisioner reads it:
 * a reply that has an `error` member is reported as a failure with the
 * error's message and data; any other reply is reported as a success.
 */
module ApiReply {
  import opened Wrappers
  import opened JsonValue

  /** The outcome of the client call: the decoded reply, or an exception it raised. */
  datatype CallResult = Returned(reply: Value) | Raised(message: string)

  /** How the provisioner reads a reply. */
  datatype ReplyClass =
    | Succeeded
    | Reported(message: Value, data: Value)
    | Unreadable   // the `in` test or a subscript of the error part raised

  /**
   * `'error' in reply`, then `reply['error']['message']` and
   * `reply['error']['data']` for the failure line; any of these raising
   * makes the reply Unreadable.
   */
  function Classify(reply: Value): (r: ReplyClass)
    ensures r.Succeeded? <==> Contains(reply, "error") == Some(false)
    ensures reply.Obj? ==> (r.Succeeded? <==> "error" !in reply.members)
    ensures r.Reported? <==>
              && reply.Obj? && "error" in reply.members
              && reply.members["error"].Obj?
              && "message" in reply.members["error"].members
              && "data" in reply.members["error"].members
    ensures r.Reported? ==>
              && r.message == reply.members["error"].members["message"]
              && r.data == reply.members["error"].members["data"]
  {
    match Contains(reply, "error")
    case None => Unreadable
    case Some(hasError) =>
      if !hasError then
        Succeeded
      else
        match Subscript(reply, "error")
        case None => Unreadable
        case Some(err) =>
          match (Subscript(err, "message"), Subscript(err, "data"))
          case (Some(message), Some(data)) => Reported(message, data)
          case _ => Unreadable
  }

  /**
   * The server's answer as a tagged value: the identifiers of the created
   * hosts, or a rejection with a code, a message and detail data.
   */
  datatype Answer = Created(hostIds: seq<string>) | Rejected(code: int, message: string, data: string)

  function Texts(xs: seq<string>): (r: seq<Value>)
    ensures |r| == |xs| && forall k | 0 <= k < |r| :: r[k] == Str(xs[k])
  {
    seq(|xs|, k requires 0 <= k < |xs| => Str(xs[k]))
  }

  /**
   * An answer as a reply value: the bare result `{"hostids": [...]}`, or a
   * reply carrying `{"error": {"code", "message", "data"}}`.  A client that
   * raises on error answers instead shows up as a `Raised` call result.
   */
  function Encode(a: Answer): Value {
    match a
    case Created(ids) => Obj(map["hostids" := Arr(Texts(ids))])
    case Rejected(code, message, data) =>
      Obj(map["error" := Obj(map["code" := Num(code), "message" := Str(message), "data" := Str(data)])])
  }

  /** The provisioner reads every encoded answer back as the answer it is. */
  lemma ClassifyEncode(a: Answer)
    ensures Classify(Encode(a)) == match a
      case Created(_) => Succeeded
      case Rejected(_, message, data) => Reported(Str(message), Str(data))
  {
  }

  /** A reply that is a text or a list and mentions "error" is not a failure report but an unreadable reply. */
  lemma NonObjectErrorIsUnreadable(reply: Value)
    requires reply.Str? || reply.Arr?
    requires Contains(reply, "error") == Some(true)
    ensures Classify(reply) == Unreadable
  {
  }
}
