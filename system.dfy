/** The tokio-era `System`: a table of local actors keyed by string, the
    one-shot foreign receiver, and the routing of relayed foreign messages. */
module ActorSystem {
  import opened Common
  import opened ForeignMessages

  /** A `LocalHandle<F, M>` as stored in the actor table: the channel to the
      actor's supervisor and the tag of its message type `M`. */
  datatype LocalHandle = LocalHandle(channel: ChannelId, messageType: TypeTag)

  /** What `get_actor` returns: a local handle, or a foreign handle that
      addresses the actor by its path. */
  datatype ActorRef = Local(handle: LocalHandle) | Foreign(path: ActorPath)

  /** The three ways `relay_foreign` can send a message on. */
  datatype Route = Forward | PopAndForward | DeliverLocal

  /** What a relay did: the envelope it put on the foreign channel (if any),
      the local actor it handed the envelope to (if any), and its result. */
  datatype Relay<F, V> = Relay(
    forwarded: Option<ForeignMessage<F, V>>,
    delivered: Option<LocalHandle>,
    result: Result<(), ActorError>)

  /** The table built by a sequence of inserts, later inserts winning. */
  function TableOf(adds: seq<(string, LocalHandle)>): (table: map<string, LocalHandle>)
  {
    if adds == [] then map[]
    else TableOf(adds[..|adds| - 1])[adds[|adds| - 1].0 := adds[|adds| - 1].1]
  }

  /** The keys inserted by a sequence of inserts. */
  function KeysOf(adds: seq<(string, LocalHandle)>): (keys: set<string>)
  {
    set i | 0 <= i < |adds| :: adds[i].0
  }

  /** No key is inserted twice. */
  ghost predicate DistinctKeys(adds: seq<(string, LocalHandle)>)
  {
    forall i, j :: 0 <= i < j < |adds| ==> adds[i].0 != adds[j].0
  }

  /** The keys of a built table are the inserted keys. */
  lemma {:induction false} TableOfKeys(adds: seq<(string, LocalHandle)>)
    ensures TableOf(adds).Keys == KeysOf(adds)
  {
    if adds != [] {
      var n := |adds| - 1;
      var init := adds[..n];
      TableOfKeys(init);
      forall k | k in KeysOf(adds) ensures k in KeysOf(init) + {adds[n].0} {
        var i :| 0 <= i < |adds| && adds[i].0 == k;
        if i < n { assert init[i].0 == k; }
      }
      forall k | k in KeysOf(init) ensures k in KeysOf(adds) {
        var i :| 0 <= i < |init| && init[i].0 == k;
        assert adds[i].0 == k;
      }
    }
  }

  /** The last insert of a sequence under distinct keys uses a key that no
      earlier insert used. */
  lemma LastKeyIsNew(adds: seq<(string, LocalHandle)>)
    requires adds != [] && DistinctKeys(adds)
    ensures adds[|adds| - 1].0 !in TableOf(adds[..|adds| - 1])
  {
    var n := |adds| - 1;
    TableOfKeys(adds[..n]);
    assert forall i :: 0 <= i < n ==> adds[..n][i].0 != adds[n].0;
  }

  /** A sequence of inserts under distinct keys builds a table with exactly
      one entry per insert, each holding the handle it was given. */
  lemma {:induction false} TableOfDistinctAdds(adds: seq<(string, LocalHandle)>)
    requires DistinctKeys(adds)
    ensures |TableOf(adds)| == |adds|
    ensures forall i :: 0 <= i < |adds| ==> adds[i].0 in TableOf(adds) && TableOf(adds)[adds[i].0] == adds[i].1
  {
    TableOfKeys(adds);
    if adds != [] {
      var n := |adds| - 1;
      var init := adds[..n];
      assert DistinctKeys(init);
      TableOfDistinctAdds(init);
      LastKeyIsNew(adds);
      forall i | 0 <= i < |adds| ensures adds[i].0 in TableOf(adds) && TableOf(adds)[adds[i].0] == adds[i].1 {
        if i < n {
          assert init[i] == adds[i];
        }
      }
    }
  }

  /** The actor table of one system. `F` is the system's federated message
      type, `V` the universe of boxed message values. */
  class System<F, V> {
    /** The system's id. */
    const id: string
    /** Whether the `foreign` feature is compiled in. */
    const foreignEnabled: bool
    /** `ActorID::new`: the path parser, which is not part of this model. */
    const parse: string -> Option<ActorPath>
    /** `ActorPath::popfirst`, which is not part of this model. */
    const popFirst: ActorPath -> ActorPath

    /** `actors`: the handles of the running actors, by key. */
    var actors: map<string, LocalHandle>
    /** `foreign_reciever`: the receiving end of the foreign channel until
        somebody takes it. */
    var foreignReceiver: Option<ChannelId>

    /** The successful adds since creation or the last shutdown, in order. */
    ghost var added: seq<(string, LocalHandle)>

    /** The table holds exactly the adds since the last shutdown, and no add
        reused a key. */
    ghost predicate Valid()
      reads this
    {
      actors == TableOf(added) && DistinctKeys(added)
    }

    /** `system::new`: an empty table and an untaken foreign receiver. */
    constructor (id: string, foreignEnabled: bool, parse: string -> Option<ActorPath>,
                 popFirst: ActorPath -> ActorPath, receiver: ChannelId)
      ensures Valid()
      ensures this.id == id && this.foreignEnabled == foreignEnabled
      ensures this.parse == parse && this.popFirst == popFirst
      ensures actors == map[] && added == [] && foreignReceiver == Some(receiver)
    {
      this.id := id;
      this.foreignEnabled := foreignEnabled;
      this.parse := parse;
      this.popFirst := popFirst;
      actors := map[];
      foreignReceiver := Some(receiver);
      added := [];
    }

    /** What the invariant gives: one table entry per successful add since
        the last shutdown, each holding the handle it was added with. */
    lemma TableHoldsAdds()
      requires Valid()
      ensures |actors| == |added|
      ensures forall i :: 0 <= i < |added| ==> added[i].0 in actors && actors[added[i].0] == added[i].1
    {
      TableOfDistinctAdds(added);
    }

    /** `get_id`. */
    function GetId(): (r: string)
      ensures r == id
    {
      id
    }

    /** The key `add_actor` stores an actor under. */
    function AddKey(name: string): (key: string)
    {
      if foreignEnabled then id + ":" + name else name
    }

    /** `is_foreign`: the path names a first system and it is not this one. */
    predicate IsForeign(p: ActorPath): (r: bool)
      requires foreignEnabled
      ensures p.first.None? ==> !r
      ensures p.first.Some? ==> (r <==> p.first.value != id)
    {
      p.first.Some? && p.first.value != id
    }

    /** The key `get_actor` looks an id up under, when it looks in the table
        at all: the id itself, or with the foreign feature the actor part of
        its path, provided the path parses and is not foreign. */
    function LocalKey(name: string): (key: Option<string>)
    {
      if !foreignEnabled then Some(name)
      else if parse(name).None? || IsForeign(parse(name).value) then None
      else Some(parse(name).value.actor)
    }

    /** `get_actor` tests `first().unwrap_or(id) != id`, `is_foreign` tests
        `first().is_some_and(|v| v != id)`: the two agree. */
    lemma ForeignTestsAgree(p: ActorPath)
      requires foreignEnabled
      ensures (p.first.GetOr(id) != id) == IsForeign(p)
    {
    }

    /** `add_actor`: `handle` is the handle of the supervisor created for the
        actor. The id is rejected if its path does not parse, and refused if
        its key is taken; otherwise exactly one entry is inserted. */
    method AddActor(name: string, handle: LocalHandle) returns (r: Result<LocalHandle, SystemError>)
      requires Valid()
      modifies this`actors, this`added
      ensures Valid()
      ensures foreignEnabled && parse(AddKey(name)).None? ==>
                r == Err(InvalidPath) && actors == old(actors) && added == old(added)
      ensures (!foreignEnabled || parse(AddKey(name)).Some?) && AddKey(name) in old(actors) ==>
                r == Err(ActorExists) && actors == old(actors) && added == old(added)
      ensures (!foreignEnabled || parse(AddKey(name)).Some?) && AddKey(name) !in old(actors) ==>
                r == Ok(handle) && actors == old(actors)[AddKey(name) := handle] &&
                added == old(added) + [(AddKey(name), handle)]
    {
      var key := if foreignEnabled then id + ":" + name else name;
      if foreignEnabled && parse(key).None? {
        return Err(InvalidPath);
      }
      if key in actors {
        return Err(ActorExists);
      }
      TableOfKeys(added);
      var adds := added + [(key, handle)];
      assert adds[..|adds| - 1] == added;
      assert forall i :: 0 <= i < |added| ==> added[i].0 != key;
      actors := actors[key := handle];
      added := adds;
      return Ok(handle);
    }

    /** `get_actor::<M>`, where `messageType` is the tag of `M`. */
    method GetActor(messageType: TypeTag, name: string) returns (r: Option<ActorRef>)
      // a path that does not parse names nothing
      ensures foreignEnabled && parse(name).None? ==> r == None
      // a path on another system gives a foreign handle, without reading the table
      ensures r.Some? && r.value.Foreign? <==>
                foreignEnabled && parse(name).Some? && IsForeign(parse(name).value)
      ensures r.Some? && r.value.Foreign? ==> r.value.path == parse(name).value
      // otherwise the handle stored under the key, if it has the requested type
      ensures r.Some? && r.value.Local? <==>
                LocalKey(name).Some? && LocalKey(name).value in actors &&
                actors[LocalKey(name).value].messageType == messageType
      ensures r.Some? && r.value.Local? ==> r.value.handle == actors[LocalKey(name).value]
    {
      var key := name;
      if foreignEnabled {
        var path := parse(name);
        if path.None? {
          return None;
        }
        ForeignTestsAgree(path.value);
        if path.value.first.GetOr(id) != id {
          return Some(Foreign(path.value));
        }
        key := path.value.actor;
      }
      if key !in actors {
        return None;
      }
      var actor := actors[key];
      if actor.messageType == messageType {
        return Some(Local(actor));
      }
      return None;
    }

    /** `shutdown`: the table is emptied (and stays usable); the result is the
        number of receivers of the shutdown signal, given as `subscribers`. */
    method Shutdown(subscribers: nat) returns (n: nat)
      requires Valid()
      modifies this`actors, this`added
      ensures Valid()
      ensures n == subscribers
      ensures actors == map[] && added == []
    {
      actors := map[];
      added := [];
      n := subscribers;
    }

    /** `get_foreign`: hands out the foreign receiver once. */
    method GetForeign() returns (r: Option<ChannelId>)
      requires foreignEnabled
      modifies this`foreignReceiver
      ensures r == old(foreignReceiver)
      ensures foreignReceiver == None
    {
      r := foreignReceiver;
      foreignReceiver := None;
    }

    /** `can_send_foreign`: true once the foreign receiver has been taken,
        that is, once somebody listens on the foreign channel. */
    method CanSendForeign() returns (r: bool)
      requires foreignEnabled
      ensures r <==> foreignReceiver.None?
    {
      r := foreignReceiver.None?;
    }

    /** The routing decision of `relay_foreign` for a message whose target
        is `target`. */
    function RelayRoute(target: ActorPath): (r: Route)
      requires foreignEnabled
      ensures r == Forward <==> IsForeign(target)
      ensures r == PopAndForward <==> !IsForeign(target) && |target.systems| > 1
      ensures r == DeliverLocal <==> !IsForeign(target) && |target.systems| <= 1
    {
      if IsForeign(target) || |target.systems| > 1 then
        if IsForeign(target) then Forward else PopAndForward
      else
        DeliverLocal
    }

    /** `send_foreign_to_local`: the envelope goes, unchanged, to the actor
        stored under its target's actor part; `handleForeign` is what that
        actor's `handle_foreign` returns for it. */
    method SendForeignToLocal(foreign: ForeignMessage<F, V>,
                              handleForeign: (LocalHandle, ForeignMessage<F, V>) -> Result<(), ActorError>)
      returns (r: Relay<F, V>)
      requires foreignEnabled
      ensures r.forwarded == None
      ensures r.delivered.Some? <==> GetTarget(foreign).actor in actors
      ensures r.delivered.None? ==> r.result == Err(ForeignTargetNotFound)
      ensures r.delivered.Some? ==>
                r.delivered.value == actors[GetTarget(foreign).actor] &&
                r.result == handleForeign(r.delivered.value, foreign)
    {
      var key := GetTarget(foreign).actor;
      if key !in actors {
        return Relay(None, None, Err(ForeignTargetNotFound));
      }
      var actor := actors[key];
      return Relay(None, Some(actor), handleForeign(actor, foreign));
    }

    /** `relay_foreign`: `channelOpen` says whether the foreign channel still
        accepts messages. */
    method RelayForeign(foreign: ForeignMessage<F, V>, channelOpen: bool,
                        handleForeign: (LocalHandle, ForeignMessage<F, V>) -> Result<(), ActorError>)
      returns (r: Relay<F, V>)
      requires foreignEnabled
      // a message for another system is forwarded as it is
      ensures IsForeign(GetTarget(foreign)) ==> r.forwarded == Some(foreign)
      // a message for this system that names further systems is forwarded with its first system popped
      ensures !IsForeign(GetTarget(foreign)) && |GetTarget(foreign).systems| > 1 ==>
                r.forwarded == Some(PopTarget(foreign, popFirst))
      ensures r.forwarded.Some? ==>
                r.delivered == None && r.result == (if channelOpen then Ok(()) else Err(ForeignSendFail))
      // anything else is delivered to a local actor, or fails if there is none
      ensures r.forwarded.None? <==> !IsForeign(GetTarget(foreign)) && |GetTarget(foreign).systems| <= 1
      ensures r.forwarded.None? ==>
                (r.delivered.Some? <==> GetTarget(foreign).actor in actors) &&
                (r.delivered.None? ==> r.result == Err(ForeignTargetNotFound)) &&
                (r.delivered.Some? ==> r.delivered.value == actors[GetTarget(foreign).actor] &&
                                       r.result == handleForeign(r.delivered.value, foreign))
    {
      var target := GetTarget(foreign);
      var route := RelayRoute(target);
      if route != DeliverLocal {
        var relayed := if route == Forward then foreign else PopTarget(foreign, popFirst);
        var result := if channelOpen then Ok(()) else Err(ForeignSendFail);
        return Relay(Some(relayed), None, result);
      }
      r := SendForeignToLocal(foreign, handleForeign);
    }
  }

  /** Without the foreign feature, an actor added under an id is found
      under that id, with the handle it was added with. */
  method AddThenGet<F, V>(s: System<F, V>, name: string, handle: LocalHandle)
    returns (added: Result<LocalHandle, SystemError>, found: Option<ActorRef>)
    requires s.Valid() && !s.foreignEnabled
    modifies s
    ensures added.Ok? <==> name !in old(s.actors)
    ensures added.Ok? ==> found == Some(Local(handle))
  {
    added := s.AddActor(name, handle);
    found := s.GetActor(handle.messageType, name);
  }

  /** After a shutdown, an id that parses can be added again, even one that
      was in use before. */
  method ShutdownThenAdd<F, V>(s: System<F, V>, name: string, handle: LocalHandle, subscribers: nat)
    returns (added: Result<LocalHandle, SystemError>)
    requires s.Valid()
    requires s.foreignEnabled ==> s.parse(s.AddKey(name)).Some?
    modifies s
    ensures s.Valid()
    ensures added == Ok(handle)
    ensures s.actors == map[s.AddKey(name) := handle]
  {
    var _ := s.Shutdown(subscribers);
    added := s.AddActor(name, handle);
  }

  /** The foreign receiver is handed out on the first call only; from then
      on somebody can be sent to. */
  method TakeForeignTwice<F, V>(s: System<F, V>)
    returns (first: Option<ChannelId>, second: Option<ChannelId>, canSend: bool)
    requires s.foreignEnabled && s.foreignReceiver.Some?
    modifies s
    ensures first == old(s.foreignReceiver) && second == None && canSend
  {
    first := s.GetForeign();
    second := s.GetForeign();
    canSend := s.CanSendForeign();
  }
}
