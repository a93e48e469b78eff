/** Foreign messages: the envelope that carries a message to an actor on
    another system, and the two ways a messenger sends one. */
module ForeignMessages {
  import opened Common

  /** A `Box<dyn Any>`: a value of universe `V` and the tag of its Rust type. */
  datatype Dyn<V> = Dyn(tag: TypeTag, value: V)

  /** `ForeignMessage<F>`: a federated message of the system-wide type `F`,
      or a boxed message of any type, each with an optional responder
      channel and the path of the target actor. */
  datatype ForeignMessage<F, V> =
    | FederatedMessage(federated: F, responder: Option<ChannelId>, target: ActorPath)
    | Message(message: Dyn<V>, responder: Option<ChannelId>, target: ActorPath)

  /** `MessageType<F, M>`: a foreign message seen as a federated message or
      as a message of the requested type `M`. */
  datatype MessageType<F, V> = Federated(federated: F) | Typed(message: V)

  /** `ForeignMessage::get_target`: the path in the third position, for
      either variant. */
  function GetTarget<F, V>(m: ForeignMessage<F, V>): (t: ActorPath)
    ensures t == m.target
  {
    match m
    case FederatedMessage(_, _, t) => t
    case Message(_, _, t) => t
  }

  /** `ForeignMessage::pop_target`, with the path module's `popfirst` given
      as `popFirst`: only the target changes. */
  function PopTarget<F, V>(m: ForeignMessage<F, V>, popFirst: ActorPath -> ActorPath): (r: ForeignMessage<F, V>)
    ensures r.FederatedMessage? <==> m.FederatedMessage?
    ensures r.FederatedMessage? ==> r.federated == m.federated
    ensures r.Message? ==> r.message == m.message
    ensures r.responder == m.responder
    ensures GetTarget(r) == popFirst(GetTarget(m))
  {
    match m
    case FederatedMessage(a, b, c) => FederatedMessage(a, b, popFirst(c))
    case Message(a, b, c) => Message(a, b, popFirst(c))
  }

  /** `as_message_type::<M>`, where `messageType` is the tag of `M`: a
      federated message always converts; a boxed message converts only when
      it holds an `M`. */
  function AsMessageType<F, V>(m: ForeignMessage<F, V>, messageType: TypeTag): (r: Result<MessageType<F, V>, ActorError>)
    ensures m.FederatedMessage? ==> r == Ok(Federated(m.federated))
    ensures m.Message? ==> (r.Ok? <==> m.message.tag == messageType)
    ensures m.Message? && r.Ok? ==> r.value == Typed(m.message.value)
    ensures r.Err? ==> r.error == ForeignResponseUnexpected
  {
    match m
    case FederatedMessage(f, _, _) => Ok(Federated(f))
    case Message(d, _, _) =>
      if d.tag == messageType then Ok(Typed(d.value)) else Err(ForeignResponseUnexpected)
  }

  /** What the calls that `send_message_foreign` makes into code outside
      this model return: `can_send_foreign()`, `send_raw_foreign(..)`, the
      value that arrives on the response channel (`None` when the channel is
      dropped), whether relaying to the caller's responder succeeds, and the
      identity of the oneshot channel that is created. */
  datatype ForeignEnv<V> = ForeignEnv(
    canSend: bool,
    sendRaw: Result<(), ActorError>,
    response: Option<Dyn<V>>,
    relayOk: bool,
    freshChannel: ChannelId)

  /** What a send did: the envelope handed to `send_raw_foreign` (if any),
      whether it waited on the response channel, the value it relayed to
      the caller's responder (if any), and what it returned. */
  datatype ForeignSend<F, V> = ForeignSend(
    sent: Option<ForeignMessage<F, V>>,
    awaited: bool,
    relayed: Option<V>,
    result: Result<(), ActorError>)

  /** `ForeignMessenger::send_message_foreign::<M>`: `messageType` and
      `responseType` are the tags of `M` and `M::Response`. */
  function SendMessageForeign<F, V>(message: V, messageType: TypeTag, responseType: TypeTag,
                                    responder: Option<ChannelId>, target: ActorPath,
                                    env: ForeignEnv<V>): (s: ForeignSend<F, V>)
    // nobody listens: nothing is sent and nothing is awaited
    ensures !env.canSend ==> s.sent == None && !s.awaited && s.relayed == None && s.result == Ok(())
    // otherwise exactly one boxed message is sent, with a response channel iff the caller gave a responder
    ensures env.canSend ==>
              s.sent == Some(Message(Dyn(messageType, message),
                                     if responder.Some? then Some(env.freshChannel) else None,
                                     target))
    ensures s.awaited <==> env.canSend && env.sendRaw.Ok? && responder.Some?
    // the four error exits
    ensures env.canSend && env.sendRaw.Err? ==> s.result == Err(env.sendRaw.error)
    ensures s.awaited && env.response.None? ==> s.result == Err(ForeignRespondFailed)
    ensures s.awaited && env.response.Some? && env.response.value.tag != responseType ==>
              s.result == Err(ForeignResponseUnexpected)
    ensures s.relayed.Some? <==> s.awaited && env.response.Some? && env.response.value.tag == responseType
    ensures s.relayed.Some? ==>
              s.relayed.value == env.response.value.value &&
              s.result == (if env.relayOk then Ok(()) else Err(ForeignResponseRelayFail))
    // success needs every stage to succeed
    ensures s.result.Ok? <==>
              !env.canSend ||
              (env.sendRaw.Ok? &&
               (responder.None? ||
                (env.response.Some? && env.response.value.tag == responseType && env.relayOk)))
  {
    var foreignResponder := if responder.Some? then Some(env.freshChannel) else None;
    var foreign := Message(Dyn(messageType, message), foreignResponder, target);
    if !env.canSend then
      ForeignSend(None, false, None, Ok(()))
    else if env.sendRaw.Err? then
      ForeignSend(Some(foreign), false, None, Err(env.sendRaw.error))
    else if responder.None? then
      ForeignSend(Some(foreign), false, None, Ok(()))
    else if env.response.None? then
      ForeignSend(Some(foreign), true, None, Err(ForeignRespondFailed))
    else if env.response.value.tag != responseType then
      ForeignSend(Some(foreign), true, None, Err(ForeignResponseUnexpected))
    else
      ForeignSend(Some(foreign), true, Some(env.response.value.value),
                  if env.relayOk then Ok(()) else Err(ForeignResponseRelayFail))
  }

  /** `ForeignMessenger::send_federated_foreign`: one federated envelope is
      handed to `send_raw_foreign`, whatever `can_send_foreign` would say, and
      its result is returned. */
  function SendFederatedForeign<F, V>(federated: F, responder: Option<ChannelId>, target: ActorPath,
                                      env: ForeignEnv<V>): (s: ForeignSend<F, V>)
    ensures s.sent == Some(FederatedMessage(federated, responder, target))
    ensures s.result == env.sendRaw
    ensures !s.awaited && s.relayed == None
  {
    ForeignSend(Some(FederatedMessage(federated, responder, target)), false, None, env.sendRaw)
  }

  /** `send_federated_foreign` does not consult `can_send_foreign`: two
      environments that differ only there give the same send. */
  lemma SendFederatedIgnoresCanSend<F, V>(federated: F, responder: Option<ChannelId>, target: ActorPath,
                                          env: ForeignEnv<V>)
    ensures SendFederatedForeign(federated, responder, target, env) ==
            SendFederatedForeign(federated, responder, target, env.(canSend := !env.canSend))
  {
  }
}
