/** The actor supervisor: it wraps one actor and passes messages to it,
    either directly or as serialized bytes. */
module Supervision {
  import opened Common

  /** `ActorWrapper<A>`; the wrapper module is not part of this model, so the
      wrapper is only the actor it holds. */
  datatype ActorWrapper<A> = ActorWrapper(actor: A)

  /** `ActorSupervisor<A>`. */
  datatype ActorSupervisor<A> = ActorSupervisor(actor: ActorWrapper<A>)

  /** What `ActorWrapper::dispatch` does with one message: the actor's state
      afterwards and the handler's result. The handler itself is a parameter
      of every dispatch below. */
  datatype Handled<A, R, E> = Handled(actor: A, result: Result<R, E>)

  /** What `dispatch_foreign` did: the supervisor afterwards, the message it
      handed to the actor (if any), the response it handed to the serializer
      (if any), and what it returned. */
  datatype ForeignDispatch<A, M, R, E> = ForeignDispatch(
    supervisor: ActorSupervisor<A>,
    handled: Option<M>,
    serialized: Option<R>,
    result: Result<seq<u8>, E>)

  /** `Supervisor::new`. */
  function New<A>(actor: A): (s: ActorSupervisor<A>)
    ensures s.actor.actor == actor
  {
    ActorSupervisor(ActorWrapper(actor))
  }

  /** `Supervisor::dispatch`: the message goes to the wrapped actor and its
      result comes back unchanged. */
  function Dispatch<A, M, R, E>(s: ActorSupervisor<A>, message: M, handle: (A, M) -> Handled<A, R, E>)
    : (r: (ActorSupervisor<A>, Result<R, E>))
    ensures r.0 == ActorSupervisor(ActorWrapper(handle(s.actor.actor, message).actor))
    ensures r.1 == handle(s.actor.actor, message).result
  {
    var h := handle(s.actor.actor, message);
    (ActorSupervisor(ActorWrapper(h.actor)), h.result)
  }

  /** `Supervisor::dispatch_foreign`: deserialize, handle, serialize, each
      stage's error ending the pipeline. */
  function DispatchForeign<A, M, R, E>(s: ActorSupervisor<A>, bytes: seq<u8>,
                                       deserialize: seq<u8> -> Result<M, E>,
                                       handle: (A, M) -> Handled<A, R, E>,
                                       serialize: R -> Result<seq<u8>, E>): (t: ForeignDispatch<A, M, R, E>)
    // a message that does not deserialize never reaches the actor
    ensures deserialize(bytes).Err? ==>
              t == ForeignDispatch(s, None, None, Err(deserialize(bytes).error))
    // otherwise the actor handles exactly the deserialized message
    ensures deserialize(bytes).Ok? ==>
              t.handled == Some(deserialize(bytes).value) &&
              t.supervisor == Dispatch(s, deserialize(bytes).value, handle).0
    // a failed handler is reported and nothing is serialized
    ensures deserialize(bytes).Ok? && Dispatch(s, deserialize(bytes).value, handle).1.Err? ==>
              t.serialized == None && t.result == Err(Dispatch(s, deserialize(bytes).value, handle).1.error)
    // on success the result is the serializer's output for the handler's response
    ensures deserialize(bytes).Ok? && Dispatch(s, deserialize(bytes).value, handle).1.Ok? ==>
              var response := Dispatch(s, deserialize(bytes).value, handle).1.value;
              t.serialized == Some(response) && t.result == serialize(response)
  {
    match deserialize(bytes)
    case Err(e) => ForeignDispatch(s, None, None, Err(e))
    case Ok(message) =>
      var (s', res) := Dispatch(s, message, handle);
      match res
      case Err(e) => ForeignDispatch(s', Some(message), None, Err(e))
      case Ok(response) => ForeignDispatch(s', Some(message), Some(response), serialize(response))
  }

  /** A supervisor made by `new` hands every message to the actor it was
      given. */
  lemma NewDispatchesToActor<A, M, R, E>(actor: A, message: M, handle: (A, M) -> Handled<A, R, E>)
    ensures Dispatch(New(actor), message, handle).1 == handle(actor, message).result
  {
  }

  /** Round trip: when the request bytes deserialize to `m` and the response
      serializer is undone by `deserializeResponse`, the serialized path
      gives the same answer and the same actor state as dispatching `m`
      directly. */
  lemma ForeignDispatchMatchesLocal<A, M, R, E>(s: ActorSupervisor<A>, m: M, bytes: seq<u8>,
                                                deserialize: seq<u8> -> Result<M, E>,
                                                handle: (A, M) -> Handled<A, R, E>,
                                                serialize: R -> Result<seq<u8>, E>,
                                                deserializeResponse: seq<u8> -> Result<R, E>)
    requires deserialize(bytes) == Ok(m)
    requires forall r {:trigger serialize(r)} :: serialize(r).Ok? ==> deserializeResponse(serialize(r).value) == Ok(r)
    ensures var t := DispatchForeign(s, bytes, deserialize, handle, serialize);
            var (s', local) := Dispatch(s, m, handle);
            && t.supervisor == s'
            && (local.Err? ==> t.result == Err(local.error))
            && (local.Ok? && t.result.Ok? ==> deserializeResponse(t.result.value) == Ok(local.value))
  {
    ResponseRoundTrip(serialize, deserializeResponse, Dispatch(s, m, handle).1);
  }

  /** A handler result that is serialized and read back is the same result. */
  lemma ResponseRoundTrip<R, E>(serialize: R -> Result<seq<u8>, E>, deserializeResponse: seq<u8> -> Result<R, E>,
                                local: Result<R, E>)
    requires forall r {:trigger serialize(r)} :: serialize(r).Ok? ==> deserializeResponse(serialize(r).value) == Ok(r)
    ensures local.Ok? && serialize(local.value).Ok? ==>
              deserializeResponse(serialize(local.value).value) == Ok(local.value)
  {
    if local.Ok? {
      var response := local.value;
      assert serialize(response).Ok? ==> deserializeResponse(serialize(response).value) == Ok(response);
    }
  }
}
