/**
 * The wire protocol of the signalling relay in server/index.js: what an
 * inbound message looks like after `JSON.parse` and destructuring, and every
 * envelope the server sends.  A field that is absent from a JSON object is
 * `None`; an outbound field holding `undefined` is dropped by
 * `JSON.stringify`, and is `None` here too.
 */
module Protocol {
  import opened Wrappers

  /** Identity of one WebSocket connection object (`ws`). */
  type ConnId = nat

  /** The identifier `uuidv4()` hands out at a successful login; only its freshness matters. */
  type Id = nat

  /** An offer, answer or candidate body: opaque JSON text relayed untouched. */
  datatype Payload = Payload(json: string)

  /** The fields the handler destructures from a decoded message: `{ type, name, offer, answer, candidate }`. */
  datatype Inbound = Inbound(
    kind: Option<string>,
    name: Option<string>,
    offer: Option<Payload>,
    answer: Option<Payload>,
    candidate: Option<Payload>)

  /** The empty object `{}` that stands in for a message that is not valid JSON. */
  const EmptyObject: Inbound := Inbound(None, None, None, None, None)

  /** `JSON.parse` with its failure caught: `None` is text that did not parse. */
  function Decode(msg: Option<Inbound>): Inbound
  {
    match msg
    case Some(data) => data
    case None => EmptyObject
  }

  /** The arms of the handler's `switch (type)`. */
  datatype Case = LoginCase | OfferCase | AnswerCase | CandidateCase | LeaveCase | DefaultCase

  /**
   * The arm `switch (type)` takes: the first label strictly equal to
   * `type`, and `default` for any other string or an absent `type`.
   */
  function Dispatch(kind: Option<string>): Case
  {
    if kind == Some("login") then LoginCase
    else if kind == Some("offer") then OfferCase
    else if kind == Some("answer") then AnswerCase
    else if kind == Some("candidate") then CandidateCase
    else if kind == Some("leave") then LeaveCase
    else DefaultCase
  }

  /**
   * JavaScript's conversion of a string-or-undefined value to a string, as
   * used for a property key (`users[name]`), a template literal and `+`:
   * `undefined` becomes the text "undefined".
   */
  function JsString(v: Option<string>): string
  {
    match v
    case Some(s) => s
    case None => "undefined"
  }

  /** `{ id, userName }`, the public view of a participant. */
  datatype UserInfo = UserInfo(id: Option<Id>, userName: Option<string>)

  /** The two `type` values `sendToAll` is called with. */
  datatype Presence = UpdateUsers | Leave

  datatype Envelope =
      /** `{ type: 'connect', message }`, the greeting */
    | Connect(message: string)
      /** `{ type: 'login', success: false, message }` */
    | LoginFailure(message: string)
      /** `{ type: 'login', success: true, users }` */
    | LoginSuccess(users: seq<UserInfo>)
      /** `{ type: 'updateUsers' | 'leave', user: { id, userName } }` */
    | Notice(kind: Presence, user: UserInfo)
      /** `{ type: 'offer', offer, name }` where `name` is the sender's */
    | OfferEnvelope(offer: Option<Payload>, name: Option<string>)
      /** `{ type: 'answer', answer }` */
    | AnswerEnvelope(answer: Option<Payload>)
      /** `{ type: 'candidate', candidate }` */
    | CandidateEnvelope(candidate: Option<Payload>)
      /** `{ type: 'error', message }` */
    | Error(message: string)

  const Greeting: string := "Well hello there, I am a WebSocket server"

  const Unavailable: string := "Username is unavailable"

  /** The error text for an offer, answer or candidate whose target is not registered. */
  function NoSuchUser(name: Option<string>): string
  {
    "User " + JsString(name) + " does not exist!"
  }

  /** The error text for a `type` no case of the switch matches. */
  function CommandNotFound(kind: Option<string>): string
  {
    "Command not found: " + JsString(kind)
  }

  /** An absent `type` is reported as "undefined". */
  lemma AbsentCommand()
    ensures CommandNotFound(None) == "Command not found: undefined"
  {
  }
}
