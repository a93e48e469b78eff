# fluxion actor bookkeeping in Dafny

This project models the bookkeeping behind fluxion's actor references:

- **`ActorSystem`** (`system.dfy`): the tokio-based `System`. It has a table of
  local actors keyed by string, with insert-unless-present (`add_actor`),
  typed lookup (`get_actor`) and clear (`shutdown`). It also has the
  one-shot foreign receiver (`get_foreign`, `can_send_foreign`) and the
  routing of relayed foreign messages (`is_foreign`, `relay_foreign`,
  `send_foreign_to_local`). The table is a `map` field of a class. A ghost
  history of the successful adds since the last shutdown is kept beside it.
  The class invariant says the table is exactly what those adds build and
  that no add reused a key.
- **`Registry`** (`fluxion.dfy`): the newer `Fluxion` registry over a
  Slacktor slab, with a name-to-id `BTreeMap` and a foreign delegate. Every
  `Arc` field is a shared object, so a clone is a second `Fluxion` over the
  same objects. The slab is an external crate. It is modelled as the log of
  calls made on it (`spawn`, `kill`, `shrink`, `shutdown`). What it answers
  (`next_id`, the index `spawn` returns, `get`) is a function of that log,
  given as a parameter, with no property assumed. The name map keeps a ghost
  history of bindings, and its invariant ties the map to the last binding
  of every name.
- **`ForeignMessages`** (`foreign.dfy`): the `ForeignMessage` envelope
  (`get_target`, `pop_target`, `as_message_type`) and the two sends of a
  `ForeignMessenger`. A send is a function from the outcomes of the calls it
  makes (`can_send_foreign`, `send_raw_foreign`, the response channel, the
  relay to the caller) to a record. The record holds what was sent, whether
  a response was awaited, what was relayed and what was returned.
- **`Supervision`** (`supervisor.dfy`): `ActorSupervisor::new`, `dispatch`
  and the deserialize → handle → serialize pipeline of `dispatch_foreign`.
- **`Common`** (`common.dfy`): `Option`, `Result`, `u64`, the `ActorPath`
  observations, `ActorError` and `SystemError`.

Code outside these four files is a parameter of the model: the path parser
(`ActorID::new`) and `popfirst`, the actor's `initialize`, `handle_foreign`,
the serializer, `ActorWrapper::dispatch`, `Delegate::get_actor` and the slab.
`Any` downcasts are type-tag comparisons (`TypeTag`).

`can_send_foreign` holds once the foreign receiver has been *taken*
(`is_none()`): somebody takes the receiver in order to listen on the
foreign channel, so "can send" means "somebody is listening".

The members of `ActorSystem.System` that exist only with the `foreign`
feature (`IsForeign`, `GetForeign`, `CanSendForeign`, `RelayRoute`,
`SendForeignToLocal`, `RelayForeign`) require `foreignEnabled`.

Where the documentation and the code differ, the model follows the code:

- The key `add_actor` stores under with the foreign feature is
  `id + ":" + name`, while `get_actor` and `send_foreign_to_local` look up
  `path.actor()`. The model keeps the lookup key as an abstract function of
  the path. It proves the add-then-get round trip only without the foreign
  feature (`ActorSystem.AddThenGet`).
- `add_actor` calls `ActorSupervisor::new(actor, path, self, policy)`, while
  `src/actor/supervisor.rs` declares `new(actor)`. The two belong to
  different generations of the code. Each is modelled as written, and the
  supervisor's creation is a parameter (`handle`) of `AddActor`.

## Model

| member | source | states |
|---|---|---|
| ActorSystem.System.constructor | src/system/mod.rs:419-460 | a new system has an empty table, no adds, and its foreign receiver not yet taken |
| ActorSystem.System.GetId | src/system/mod.rs:261-264 | the id the system was created with |
| ActorSystem.System.IsForeign | src/system/mod.rs:114-118 | a path is foreign exactly when its first system exists and is not this system's id |
| ActorSystem.System.TableHoldsAdds | src/system/mod.rs:288-323 | under the invariant the table has one entry per successful add since the last shutdown, each holding the handle it was added with |
| ActorSystem.System.ForeignTestsAgree | src/system/mod.rs:115-118 | the test in `get_actor` (`first().unwrap_or(id) != id`) and `is_foreign` (`first().is_some_and(v != id)`) agree on every path |
| ActorSystem.System.AddActor | src/system/mod.rs:268-324 | with the foreign feature, an id whose prefixed key does not parse gives `InvalidPath` and changes nothing; a taken key gives `ActorExists` and changes nothing; otherwise the handle is inserted under the key (`id:name` with the foreign feature, else `name`), every other entry is kept, and the invariant holds |
| ActorSystem.System.GetActor | src/system/mod.rs:326-374 | read-only; an unparsable path gives `None`; a foreign handle exactly when the path's first system exists and is another system, carrying that path; a local handle exactly when the lookup key is in the table with the requested message type, and then the stored handle |
| ActorSystem.System.Shutdown | src/system/mod.rs:379-402 | the table and the add history become empty, the invariant holds, and the result is the number of shutdown subscribers |
| ActorSystem.System.GetForeign | src/system/mod.rs:104-112 | returns the receiver that was there and leaves none behind |
| ActorSystem.System.CanSendForeign | src/system/mod.rs:120-123 | true exactly when the foreign receiver has been taken |
| ActorSystem.System.RelayRoute | src/system/mod.rs:130-147 | forward exactly when the target is foreign; pop and forward exactly when it is local with more than one system; deliver locally exactly when it is local with at most one system |
| ActorSystem.System.SendForeignToLocal | src/system/mod.rs:150-211 | the envelope goes unchanged to the actor under the target's actor part, whose `handle_foreign` result is returned; with no such actor, `ForeignTargetNotFound`; nothing is forwarded |
| ActorSystem.System.RelayForeign | src/system/mod.rs:125-148 | a foreign target is forwarded unchanged; a local target naming more than one system is forwarded with its first system popped; forwarding fails with `ForeignSendFail` when the channel is closed; every other message is delivered locally or fails with `ForeignTargetNotFound` |
| ActorSystem.TableOfKeys | src/system/mod.rs:291-320 | the keys of the table built by a sequence of inserts are exactly the inserted keys |
| ActorSystem.LastKeyIsNew | src/system/mod.rs:290-293 | under distinct keys, the last insert's key was not in the table before it |
| ActorSystem.TableOfDistinctAdds | src/system/mod.rs:288-323 | inserts under distinct keys build a table with one entry per insert, each holding its own handle |
| ActorSystem.AddThenGet | src/system/mod.rs:268-374 | without the foreign feature, an add succeeds exactly when the id is free, and then `get_actor` with the handle's message type returns that handle |
| ActorSystem.ShutdownThenAdd | src/system/mod.rs:379-393 | after shutdown any id that parses can be added, and the table holds only it |
| ActorSystem.TakeForeignTwice | src/system/mod.rs:104-123 | the first `get_foreign` returns the receiver, the second returns none, and afterwards `can_send_foreign` is true |
| ForeignMessages.GetTarget | src/message/foreign.rs:30-35 | the third component of either variant |
| ForeignMessages.PopTarget | src/message/foreign.rs:38-43 | keeps the variant, payload and responder; the new target is `popfirst` of the old one |
| ForeignMessages.AsMessageType | src/message/foreign.rs:47-57 | a federated message always converts to `Federated` of its payload; a boxed message converts exactly when its tag is the requested type, to `Message` of its value; the only error is `ForeignResponseUnexpected` |
| ForeignMessages.SendMessageForeign | src/message/foreign.rs:93-128 | with no listener nothing is sent or awaited and the result is `Ok`; otherwise one boxed message is sent, with a fresh response channel exactly when a responder was given; a response is awaited exactly when the send succeeded and a responder was given; the four error exits (send error propagated, dropped channel, wrong response type, failed relay); success exactly when every stage succeeds |
| ForeignMessages.SendFederatedForeign | src/message/foreign.rs:132-140 | exactly one `FederatedMessage(federated, responder, target)` is sent, the result is the raw send's, nothing is awaited |
| ForeignMessages.SendFederatedIgnoresCanSend | src/message/foreign.rs:132-140 | the federated send is the same whatever `can_send_foreign` would say |
| Supervision.New | src/actor/supervisor.rs:90-94 | the supervisor wraps exactly the given actor |
| Supervision.Dispatch | src/actor/supervisor.rs:115-120 | the message goes unchanged to the wrapped actor; its new state and result come back unchanged |
| Supervision.DispatchForeign | src/actor/supervisor.rs:96-112 | a deserialization error is returned and the actor is not invoked; otherwise the actor handles exactly the deserialized message; a handler error is returned and nothing is serialized; on success the result is the serializer's output for the response |
| Supervision.NewDispatchesToActor | src/actor/supervisor.rs:90-120 | a new supervisor's dispatch returns the given actor's result |
| Supervision.ForeignDispatchMatchesLocal | src/actor/supervisor.rs:96-120 | when the bytes deserialize to `m` and response serialization can be undone, `dispatch_foreign` leaves the same actor state as `dispatch(m)`, returns its error, or a serialized response that reads back as its response |
| Registry.AsSender | fluxion/src/fluxion.rs:180-190 | a local reference is wrapped as a sender, and none gives none |
| Registry.LastBindingUnique | fluxion/src/fluxion.rs:76-79 | a name has at most one most recent binding |
| Registry.BindAllIsLastBinding | fluxion/src/fluxion.rs:64-66 | the name map holds a name exactly when it was ever bound, and then under the id bound to it last |
| Registry.Fluxion.constructor | fluxion/src/fluxion.rs:38-45 | `new`: fresh slab with no calls made, empty name map, the given id and a fresh shared delegate |
| Registry.Fluxion.Clone | fluxion/src/fluxion.rs:28-32 | a fresh registry sharing the slab, name map, id and delegate |
| Registry.Fluxion.GetId | fluxion/src/fluxion.rs:54-59 | the id given at creation |
| Registry.Fluxion.GetDelegate | fluxion/src/fluxion.rs:47-52 | the shared delegate |
| Registry.Fluxion.LocalRefAt | fluxion/src/fluxion.rs:159-167 | none for an id beyond `usize`; otherwise a reference exactly when the slab holds an actor of the type there, carrying the slab's handle and exactly the queried id |
| Registry.Fluxion.GetActorId | fluxion/src/fluxion.rs:61-66 | read-only; some id exactly when the name was ever bound, and then the id bound to it last |
| Registry.Fluxion.Add | fluxion/src/fluxion.rs:96-128 | a failed `initialize` returns its error and leaves the slab untouched; otherwise the initialized actor is spawned with the slab's next id as context id, and the result is the spawn index as `u64` |
| Registry.Fluxion.AddNamed | fluxion/src/fluxion.rs:68-94 | on failure the same error, slab and names unchanged; on success the spawn as in `add` and the name bound to the new id, overwriting any earlier binding |
| Registry.Fluxion.Kill | fluxion/src/fluxion.rs:130-152 | an id beyond `usize` changes nothing; otherwise the slab is asked to kill that index of the type, then to shrink |
| Registry.Fluxion.GetLocal | fluxion/src/fluxion.rs:155-167 | read-only; the reference described by `LocalRefAt`, carrying the queried id |
| Registry.Fluxion.Get | fluxion/src/fluxion.rs:169-198 | `Local(id)` is `get_local(id)`; `LocalNamed(name)` is none if the name is unbound, else `get_local` of its id; any other identifier is the delegate's answer for it |
| Registry.Fluxion.Shutdown | fluxion/src/fluxion.rs:229-238 | the slab is asked to shut down and nothing else changes |
| Registry.NamesSharedAcrossClones | fluxion/src/fluxion.rs:28-32 | a name added through a clone is found through the original with the new id; on failure the original sees the old binding |
| Registry.RebindName | fluxion/src/fluxion.rs:76-93 | adding twice under one name binds it to the second id, and both actors stay spawned, with no kill between them |

## Left out

- Concurrency: every locked operation is one atomic step. `tokio::spawn`
  of the supervisor task, the locks and all interleavings are not modelled.
- Notifications and the shutdown broadcast (`notify`, `notify_local`,
  `subscribe_*`) and the polling loops of `drain_notify` and
  `drain_shutdown`. `ActorSystem.System.Shutdown` takes the number of
  shutdown subscribers as a parameter.
- The supervisor task and its creation in `add_actor`: the handle it yields
  is a parameter of `AddActor`.
- Path parsing (`ActorID::new`), `first`, `systems`, `actor` and `popfirst`:
  parameters or independent observations of a path, with no relation
  assumed between them.
- Slacktor's internals: the slab is a log of calls, and its answers are
  functions of that log with no property assumed. Fresh ids and the agreement
  of `next_id` with `spawn`'s index are therefore not modelled.
- Registry.Fluxion.Kill: the source takes the write lock twice (kill, then
  shrink). The model appends both calls in one atomic step, so another task
  acting between them is not captured.
- `MessageSerializer`, `ActorWrapper::dispatch`, `Actor::initialize`,
  `handle_foreign` and `Delegate::get_actor` are function parameters.
- The identifiers module is not part of this model: every identifier
  other than `Local` and `LocalNamed` is one opaque case, handed unchanged to
  the delegate.
- The conversion of the serializer's and the actor's errors into
  `FluxionError` is left out: errors pass through unchanged.
- ActorSystem.System.SendForeignToLocal: follows the `federated` version
  (src/system/mod.rs:152-190). The non-federated version
  (src/system/mod.rs:194-211) reads `foreign.target`, a field that the
  tuple-variant `ForeignMessage` does not have; it is modelled by its
  evident intent, the same lookup of the target's actor part and hand-over
  of the envelope.
- Channels (mpsc, oneshot) are identities. Sending on the foreign channel
  is a parameter (`channelOpen`). The response arriving and the relay to
  the caller are fields of `ForeignEnv`.
- src/util/params.rs, src/actor/handle.rs, src/handle.rs, src/main.rs,
  src/lib.rs and fluxion/src/lib.rs are type plumbing, channel wrappers, a
  demo or re-exports, and are not modelled.
- `u64`-to-`usize` conversion: `usizeMax` is a parameter of the registry,
  standing for the platform's `usize::MAX`.
