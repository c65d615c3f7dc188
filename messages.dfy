/**
 * The wire vocabulary shared by both ends of the "insurance-forms" protocol:
 * envelopes, their payloads, and where a post is delivered.
 */
module Messages {
  import opened Wrappers

  /** An abstract reference to a browsing context (a window, frame or popup). */
  type WindowId = nat

  /** The logical channel name both ends agree on. */
  const ChannelName: string := "insurance-forms"

  /** A JSON scalar, as found in `prepopulated` maps and custom form data. */
  datatype Scalar = Text(text: string) | Flag(flag: bool) | Number(number: int)

  /** An object whose structure the protocol never inspects (form content, form data). */
  type Record = map<string, Scalar>

  /**
   * The `data` member of an envelope. The typed protocol payloads are one
   * constructor each; `Object` is any other plain object and `Undefined`
   * an absent payload.
   */
  datatype Payload =
    | Undefined
    | LoadRequest(formId: string, fields: seq<string>)
    | LoadResponse(formId: string, prepopulated: map<string, Scalar>, content: Record)
    | SaveRequest(formId: string, content: Record)
    | SaveResponse(formId: string, success: bool)
    | SubmitRequest(formId: string, content: Record)
    | SubmitResponse(formId: string, success: bool)
    | FormChangeRequest(formId: string, content: Record)
    | FormReady(formId: string, formName: string)
    | ConnectedInfo(connectedFormId: Option<Scalar>, connectedFormName: Option<Scalar>)
    | Object(entries: Record)

  /** The typed payloads, all of which carry a string `formId`. */
  predicate IsTyped(d: Payload) {
    !(d.Undefined? || d.ConnectedInfo? || d.Object?)
  }

  /** `data?.formId`: the payload's `formId` member, if it has one. */
  function FormIdOf(d: Payload): (r: Option<Scalar>)
    ensures d.Undefined? ==> r.None?
    ensures IsTyped(d) ==> r == Some(Text(d.formId))
  {
    match d
    case Undefined => None
    case ConnectedInfo(id, _) => id
    case Object(entries) => if "formId" in entries then Some(entries["formId"]) else None
    case _ => Some(Text(d.formId))
  }

  /** `data?.formName`: the payload's `formName` member, if it has one. */
  function FormNameOf(d: Payload): (r: Option<Scalar>)
    ensures d.FormReady? ==> r == Some(Text(d.formName))
    ensures !(d.FormReady? || d.ConnectedInfo? || d.Object?) ==> r.None?
  {
    match d
    case FormReady(_, name) => Some(Text(name))
    case ConnectedInfo(_, name) => name
    case Object(entries) => if "formName" in entries then Some(entries["formName"]) else None
    case _ => None
  }

  /** The message object posted between windows. The timestamp is informational only. */
  datatype Envelope = Envelope(channel: string, msgType: string, data: Payload, timestamp: int)

  /** Where a post goes: the well-known relatives of the sending window, or a specific window. */
  datatype Target = Parent | Opener | Self | Window(id: WindowId)

  /** One `postMessage` call: the receiving window and the envelope. */
  datatype Post = Post(target: Target, envelope: Envelope)

  /** An envelope on this protocol's channel. */
  function Outgoing(msgType: string, data: Payload, now: int): (e: Envelope)
    ensures e.channel == ChannelName && e.msgType == msgType && e.data == data
  {
    Envelope(ChannelName, msgType, data, now)
  }
}
