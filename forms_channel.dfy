/**
 * The host-side "insurance-forms" channel: it filters incoming envelopes by
 * channel name, remembers the last sender as the reply target, dispatches by
 * message type to a fixed record of optional listeners, and posts outgoing
 * envelopes either up the parent/opener chain (`send`) or back to the last
 * sender (`reply`).
 */
module FormsChannel {
  import opened Wrappers
  import opened Messages

  /** The members of the listener record, one per protocol message kind. */
  datatype Event =
    | OnLoadRequest | OnLoadResponse
    | OnSaveRequest | OnSaveResponse
    | OnSubmitRequest | OnSubmitResponse
    | OnFormChangeRequest

  /** The `type` tag carried by envelopes of each kind. */
  function Tag(e: Event): string {
    match e
    case OnLoadRequest => "onLoadRequest"
    case OnLoadResponse => "onLoadResponse"
    case OnSaveRequest => "onSaveRequest"
    case OnSaveResponse => "onSaveResponse"
    case OnSubmitRequest => "onSubmitRequest"
    case OnSubmitResponse => "onSubmitResponse"
    case OnFormChangeRequest => "onFormChangeRequest"
  }

  lemma TagInjective(e1: Event, e2: Event)
    requires Tag(e1) == Tag(e2)
    ensures e1 == e2
  {
  }

  /** The kinds the dispatch switch has a case for: all but form-change requests. */
  predicate Switched(e: Event) {
    e != OnFormChangeRequest
  }

  /** The case of the dispatch switch selected by a `type` tag, if any. */
  function Handled(t: string): (r: Option<Event>)
    ensures r.Some? ==> Tag(r.value) == t && Switched(r.value)
    ensures forall e :: Switched(e) && Tag(e) == t ==> r == Some(e)
  {
    if t == Tag(OnLoadRequest) then Some(OnLoadRequest)
    else if t == Tag(OnLoadResponse) then Some(OnLoadResponse)
    else if t == Tag(OnSaveRequest) then Some(OnSaveRequest)
    else if t == Tag(OnSaveResponse) then Some(OnSaveResponse)
    else if t == Tag(OnSubmitRequest) then Some(OnSubmitRequest)
    else if t == Tag(OnSubmitResponse) then Some(OnSubmitResponse)
    else None
  }

  /** One call of a listener, with the payload it was given. */
  datatype Invocation = Invocation(listener: Event, data: Payload)

  /**
   * The listener calls that an envelope on the right channel causes, given
   * which listeners are present: at most one, of the listener named by the
   * envelope's type, with the envelope's data unchanged.
   */
  function Dispatch(listeners: set<Event>, env: Envelope): (r: seq<Invocation>)
    ensures |r| <= 1
    ensures forall i :: 0 <= i < |r| ==>
      r[i].listener in listeners && Switched(r[i].listener) && Tag(r[i].listener) == env.msgType && r[i].data == env.data
    ensures forall e :: e in listeners && Switched(e) && Tag(e) == env.msgType ==> r == [Invocation(e, env.data)]
  {
    match Handled(env.msgType)
    case Some(e) => if e in listeners then [Invocation(e, env.data)] else []
    case None => []
  }

  /** An envelope whose type names no switched listener invokes nothing, whatever the listeners. */
  lemma UnknownTypeInvokesNothing(listeners: set<Event>, env: Envelope)
    requires forall e :: Switched(e) ==> Tag(e) != env.msgType
    ensures Dispatch(listeners, env) == []
  {
  }

  /** A form-change request reaches no listener, even a registered `onFormChangeRequest`. */
  lemma FormChangeNeverDispatched(listeners: set<Event>, data: Payload, now: int)
    ensures Dispatch(listeners, Outgoing(Tag(OnFormChangeRequest), data, now)) == []
  {
    var r := Dispatch(listeners, Outgoing(Tag(OnFormChangeRequest), data, now));
    if |r| == 1 {
      TagInjective(r[0].listener, OnFormChangeRequest);
    }
  }

  /**
   * Round trip: an envelope built by `send` or `reply` with a switched kind's
   * tag, delivered to another channel, reaches exactly that kind's listener
   * with identical data, if the receiver has it.
   */
  lemma {:induction false} DeliveredEnvelopeReachesNamedListener(e: Event, data: Payload, now: int, listeners: set<Event>)
    requires Switched(e)
    ensures Dispatch(listeners, Outgoing(Tag(e), data, now)) == if e in listeners then [Invocation(e, data)] else []
  {
    var r := Dispatch(listeners, Outgoing(Tag(e), data, now));
    if |r| == 1 {
      TagInjective(r[0].listener, e);
    }
  }

  /** The window `send` runs in: its own reference and its parent and opener, as far as they exist. */
  datatype WindowContext = WindowContext(self: WindowId, parent: Option<WindowId>, opener: Option<WindowId>)

  /** `window.parent && window.parent !== window`: the channel runs in a frame. */
  predicate HasDistinctParent(ctx: WindowContext) {
    ctx.parent.Some? && ctx.parent.value != ctx.self
  }

  /** The one target `send` posts to: the parent, else the opener, else the window itself. */
  function SendTarget(ctx: WindowContext): (t: Target)
    ensures t.Parent? <==> HasDistinctParent(ctx)
    ensures t.Opener? <==> !HasDistinctParent(ctx) && ctx.opener.Some?
    ensures t.Self? <==> !HasDistinctParent(ctx) && ctx.opener.None?
    ensures !t.Window?
  {
    if HasDistinctParent(ctx) then Parent
    else if ctx.opener.Some? then Opener
    else Self
  }

  /** What `reply` posts: one envelope to the recorded sender, or nothing if there is none. */
  function ReplyPosts(replySource: Option<WindowId>, env: Envelope): (r: seq<Post>)
    ensures replySource.None? <==> r == []
    ensures replySource.Some? ==> r == [Post(Window(replySource.value), env)]
    ensures forall i :: 0 <= i < |r| ==> !r[i].target.Parent? && !r[i].target.Opener? && !r[i].target.Self?
  {
    match replySource
    case None => []
    case Some(w) => [Post(Window(w), env)]
  }

  class InsuranceFormsChannel {
    /** The window the channel lives in (its parent and opener never change). */
    const context: WindowContext
    /** Which members of the listener record are present. */
    var listeners: set<Event>
    /** The source of the last envelope that passed the channel filter. */
    var replySource: Option<WindowId>
    /** Every envelope posted so far, in order. */
    var outbox: seq<Post>
    /** Every listener call made so far, in order. */
    var invoked: seq<Invocation>

    constructor (listeners: set<Event>, context: WindowContext)
      ensures this.listeners == listeners && this.context == context
      ensures replySource == None && outbox == [] && invoked == []
    {
      this.listeners := listeners;
      this.context := context;
      replySource := None;
      outbox := [];
      invoked := [];
    }

    /** `this.listeners.onX?.(data)`: call the listener if it is present. */
    method Invoke(e: Event, data: Payload)
      modifies this`invoked
      ensures invoked == old(invoked) + if e in listeners then [Invocation(e, data)] else []
    {
      if e in listeners {
        invoked := invoked + [Invocation(e, data)];
      }
    }

    /**
     * The window "message" handler. It stays attached after `Destroy`, so it
     * runs for every message the window receives.
     */
    method HandleMessage(env: Envelope, source: Option<WindowId>)
      modifies this`replySource, this`invoked
      ensures env.channel != ChannelName ==> replySource == old(replySource) && invoked == old(invoked)
      ensures env.channel == ChannelName ==> replySource == source && invoked == old(invoked) + Dispatch(listeners, env)
    {
      if env.channel != ChannelName {
        return;
      }
      replySource := source;
      var t := env.msgType;
      if t == Tag(OnLoadRequest) {
        Invoke(OnLoadRequest, env.data);
      } else if t == Tag(OnLoadResponse) {
        Invoke(OnLoadResponse, env.data);
      } else if t == Tag(OnSaveRequest) {
        Invoke(OnSaveRequest, env.data);
      } else if t == Tag(OnSaveResponse) {
        Invoke(OnSaveResponse, env.data);
      } else if t == Tag(OnSubmitRequest) {
        Invoke(OnSubmitRequest, env.data);
      } else if t == Tag(OnSubmitResponse) {
        Invoke(OnSubmitResponse, env.data);
      }
    }

    /** Post one envelope up the parent/opener chain. */
    method Send(msgType: string, data: Payload, now: int)
      modifies this`outbox
      ensures outbox == old(outbox) + [Post(SendTarget(context), Outgoing(msgType, data, now))]
    {
      var message := Outgoing(msgType, data, now);
      if HasDistinctParent(context) {
        outbox := outbox + [Post(Parent, message)];
        return;
      }
      if context.opener.Some? {
        outbox := outbox + [Post(Opener, message)];
        return;
      }
      outbox := outbox + [Post(Self, message)];
    }

    /** Post one envelope back to the last sender, if there is one. */
    method Reply(msgType: string, data: Payload, now: int)
      modifies this`outbox
      ensures outbox == old(outbox) + ReplyPosts(replySource, Outgoing(msgType, data, now))
    {
      var message := Outgoing(msgType, data, now);
      if replySource.Some? {
        outbox := outbox + [Post(Window(replySource.value), message)];
      }
    }

    method SendLoadRequest(request: Payload, now: int)
      requires request.LoadRequest?
      modifies this`outbox
      ensures outbox == old(outbox) + [Post(SendTarget(context), Outgoing(Tag(OnLoadRequest), request, now))]
    {
      Send(Tag(OnLoadRequest), request, now);
    }

    method SendLoadResponse(response: Payload, now: int)
      requires response.LoadResponse?
      modifies this`outbox
      ensures outbox == old(outbox) + ReplyPosts(replySource, Outgoing(Tag(OnLoadResponse), response, now))
    {
      Reply(Tag(OnLoadResponse), response, now);
    }

    method SendSaveRequest(request: Payload, now: int)
      requires request.SaveRequest?
      modifies this`outbox
      ensures outbox == old(outbox) + [Post(SendTarget(context), Outgoing(Tag(OnSaveRequest), request, now))]
    {
      Send(Tag(OnSaveRequest), request, now);
    }

    method SendSaveResponse(response: Payload, now: int)
      requires response.SaveResponse?
      modifies this`outbox
      ensures outbox == old(outbox) + ReplyPosts(replySource, Outgoing(Tag(OnSaveResponse), response, now))
    {
      Reply(Tag(OnSaveResponse), response, now);
    }

    method SendSubmitRequest(request: Payload, now: int)
      requires request.SubmitRequest?
      modifies this`outbox
      ensures outbox == old(outbox) + [Post(SendTarget(context), Outgoing(Tag(OnSubmitRequest), request, now))]
    {
      Send(Tag(OnSubmitRequest), request, now);
    }

    method SendSubmitResponse(response: Payload, now: int)
      requires response.SubmitResponse?
      modifies this`outbox
      ensures outbox == old(outbox) + ReplyPosts(replySource, Outgoing(Tag(OnSubmitResponse), response, now))
    {
      Reply(Tag(OnSubmitResponse), response, now);
    }

    method SendFormChangeRequest(request: Payload, now: int)
      requires request.FormChangeRequest?
      modifies this`outbox
      ensures outbox == old(outbox) + [Post(SendTarget(context), Outgoing(Tag(OnFormChangeRequest), request, now))]
    {
      Send(Tag(OnFormChangeRequest), request, now);
    }

    /**
     * Empty the listener record. The window handler is not detached (the
     * function removed is a fresh binding), so later envelopes still update
     * `replySource`, but they reach no listener.
     */
    method Destroy()
      modifies this`listeners
      ensures listeners == {}
    {
      listeners := {};
    }
  }

  /**
   * A request sent by one channel and delivered to another from window `from`
   * reaches the receiver's listener for its kind, and the receiver's reply
   * goes back to `from` and nowhere else.
   */
  method RequestReplyRoundTrip(sender: InsuranceFormsChannel, receiver: InsuranceFormsChannel, from: WindowId,
                               request: Event, data: Payload, response: Event, answer: Payload, now: int)
    requires sender != receiver && Switched(request)
    modifies sender`outbox, receiver`replySource, receiver`invoked, receiver`outbox
    ensures receiver.invoked == old(receiver.invoked) + if request in receiver.listeners then [Invocation(request, data)] else []
    ensures receiver.outbox == old(receiver.outbox) + [Post(Window(from), Outgoing(Tag(response), answer, now))]
  {
    sender.Send(Tag(request), data, now);
    var post := sender.outbox[|sender.outbox| - 1];
    receiver.HandleMessage(post.envelope, Some(from));
    DeliveredEnvelopeReachesNamedListener(request, data, now, receiver.listeners);
    receiver.Reply(Tag(response), answer, now);
  }

  /** After `Destroy`, a matching envelope still moves the reply target but calls no listener. */
  method DestroyedChannelReceives(channel: InsuranceFormsChannel, env: Envelope, source: Option<WindowId>)
    requires env.channel == ChannelName
    modifies channel`listeners, channel`replySource, channel`invoked
    ensures channel.listeners == {} && channel.invoked == old(channel.invoked) && channel.replySource == source
  {
    channel.Destroy();
    channel.HandleMessage(env, source);
  }
}
