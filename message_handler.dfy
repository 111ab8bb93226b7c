/**
 * `src/server_socket/message_handler.rs`: the registry from type URL to
 * listener, the context handed to a listener, and the error for a type URL
 * nobody listens to.
 */
module MessageHandler {
  import opened Wrappers
  import opened Proto
  import opened ServerSocket

  /**
   * A listener receives the payload bytes, whether the type URL is empty, and
   * the message context. Listeners are stored and looked up but never called
   * (the call is commented out in the source), so nothing here depends on what
   * they do.
   */
  type Listener = (seq<byte>, bool, MessageContext) -> Result<(), string>

  /** What a listener is handed: the connection's channel and the acknowledgement id of the message. */
  datatype MessageContext = MessageContext(channelContext: ChannelContext, acknowledgementId: Option<string>)
  {
    /** `reply`: send on the same connection under the stored acknowledgement id, whatever it is. */
    method Reply(msg: Any) returns (r: Result<(), string>)
      requires channelContext.Valid()
      modifies channelContext
      ensures channelContext.Valid() && r.Ok?
      ensures channelContext.outbox == old(channelContext.outbox) + [MessageTransport(Some(msg), acknowledgementId)]
    {
      r := channelContext.SendMessageAck(msg, acknowledgementId);
    }

    /** `send_message`: send on the same connection without an acknowledgement id. */
    method SendMessage(msg: Any) returns (r: Result<(), string>)
      requires channelContext.Valid()
      modifies channelContext
      ensures channelContext.Valid() && r.Ok?
      ensures channelContext.outbox == old(channelContext.outbox) + [MessageTransport(Some(msg), None)]
    {
      r := channelContext.SendMessage(msg);
    }
  }

  /** The error `handle_message` returns for a type URL without a listener. */
  datatype MissingListenerError = MissingListenerError(typeUrl: string)
  {
    /** The `Display` text. */
    function Display(): (s: string)
      ensures |s| == |typeUrl| + 30
      ensures s[..20] == "Missing listener for"
      ensures s[20] == ' ' && s[21..21 + |typeUrl|] == typeUrl
      ensures s[21 + |typeUrl|..] == " message!"
    {
      "Missing listener for " + typeUrl + " message!"
    }

    /** The `Debug` text, the same as the `Display` text. */
    function Debug(): (s: string)
      ensures s == Display()
    {
      "Missing listener for " + typeUrl + " message!"
    }
  }

  /** Errors for different type URLs have different texts. */
  lemma DisplayInjective(e1: MissingListenerError, e2: MissingListenerError)
    requires e1.Display() == e2.Display()
    ensures e1 == e2
  {
    var s := e1.Display();
    assert e1.typeUrl == s[21..|s| - 9];
  }

  /** What `handle_message` found for a registered type URL: the listener and the context it would be called with. */
  datatype Dispatch = Dispatch(listener: Listener, context: MessageContext)

  /** `MessageHandler`: the listeners, keyed by the type URL of the messages they take. */
  class MessageHandler {
    var listeners: map<string, Listener>

    /** `MessageHandler::new`: no listeners. */
    constructor ()
      ensures listeners == map[]
    {
      listeners := map[];
    }

    /** `add_listener`: register `listener` for `typeUrl`, replacing any earlier one. */
    method AddListener(typeUrl: string, listener: Listener)
      modifies this
      ensures listeners == old(listeners)[typeUrl := listener]
      ensures listeners.Keys == old(listeners).Keys + {typeUrl}
      ensures listeners[typeUrl] == listener
      ensures forall u :: u in old(listeners) && u != typeUrl ==> listeners[u] == old(listeners)[u]
    {
      listeners := listeners[typeUrl := listener];
    }

    /**
     * `handle_message`: look up the message's type URL; without a listener
     * that is an error naming the URL, otherwise the listener is found and a
     * context holding the acknowledgement id is built.
     */
    function HandleMessage(message: Any, acknowledgementId: Option<string>, chCtx: ChannelContext): (r: Result<Dispatch, MissingListenerError>)
      reads this
      ensures r.Err? <==> message.typeUrl !in listeners
      ensures r.Err? ==> r.error.typeUrl == message.typeUrl
      ensures r.Ok? ==> r.value.listener == listeners[message.typeUrl]
      ensures r.Ok? ==> r.value.context.acknowledgementId == acknowledgementId
      ensures r.Ok? ==> r.value.context.channelContext == chCtx
    {
      if message.typeUrl !in listeners then
        Err(MissingListenerError(message.typeUrl))
      else
        var listener := listeners[message.typeUrl];
        Ok(Dispatch(listener, MessageContext(chCtx, acknowledgementId)))
    }
  }

  /** A registry without listeners rejects every message, naming its type URL. */
  method NewHandlerRejects(message: Any, acknowledgementId: Option<string>, chCtx: ChannelContext)
    returns (r: Result<Dispatch, MissingListenerError>)
    ensures r == Err(MissingListenerError(message.typeUrl))
  {
    var handler := new MessageHandler();
    r := handler.HandleMessage(message, acknowledgementId, chCtx);
  }

  /**
   * Registering `first` and then `second` for one type URL, with another
   * listener in between for a different one, dispatches that URL to `second`.
   */
  method LastRegistrationWins(first: Listener, other: Listener, second: Listener, otherUrl: string,
                              message: Any, acknowledgementId: Option<string>, chCtx: ChannelContext)
    returns (r: Result<Dispatch, MissingListenerError>)
    requires otherUrl != message.typeUrl
    ensures r == Ok(Dispatch(second, MessageContext(chCtx, acknowledgementId)))
  {
    var handler := new MessageHandler();
    handler.AddListener(message.typeUrl, first);
    handler.AddListener(otherUrl, other);
    handler.AddListener(message.typeUrl, second);
    r := handler.HandleMessage(message, acknowledgementId, chCtx);
  }

  /**
   * A reply from the context that `handle_message` built carries the
   * acknowledgement id of the incoming message: the reply is correlated with it.
   */
  method ReplyCarriesAcknowledgementId(handler: MessageHandler, message: Any, acknowledgementId: Option<string>,
                                       chCtx: ChannelContext, msg: Any)
    returns (r: Result<Dispatch, MissingListenerError>)
    requires chCtx.Valid()
    requires message.typeUrl in handler.listeners
    modifies chCtx
    ensures r.Ok? && chCtx.Valid()
    ensures chCtx.outbox == old(chCtx.outbox) + [MessageTransport(Some(msg), acknowledgementId)]
  {
    r := handler.HandleMessage(message, acknowledgementId, chCtx);
    var sent := r.value.context.Reply(msg);
  }
}
