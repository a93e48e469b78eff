/** The `Fluxion` registry: actors live in a slab owned by an external crate
    (Slacktor) and may be given names; identifiers are resolved to local
    references or handed to the foreign delegate. */
module Registry {
  import opened Common

  /** An actor value as handed to `add`: the tag of its Rust type and its
      state. */
  datatype Actor<S> = Actor(kind: TypeTag, state: S)

  /** One call the registry makes on its slab: `spawn` of a wrapped actor
      whose context carries `contextId`, `kill::<kind>(index)`, `shrink`,
      `shutdown`. */
  datatype SlabOp<S> =
    | Spawn(actor: Actor<S>, contextId: nat)
    | Kill(kind: TypeTag, index: nat)
    | Shrink
    | Shutdown

  /** A handle cloned out of the slab, known only by identity. */
  type SlabHandle = nat

  /** The slab crate is not part of this model. Its state is determined by
      the calls made on it, so what it answers is given as functions of
      those calls: `next_id()`, the index `spawn` returns, and
      `get::<kind>(index)`. Nothing is assumed about these functions. */
  datatype SlabBehaviour<!S> = SlabBehaviour(
    nextId: seq<SlabOp<S>> -> nat,
    spawnIndex: seq<SlabOp<S>> -> nat,
    get: (seq<SlabOp<S>>, TypeTag, nat) -> Option<SlabHandle>)

  /** `Identifier`: a local id, a local name, or one of the identifiers that
      address another system (the identifiers module is not part of this
      model, so those are one opaque case). */
  datatype Identifier = Local(id: u64) | LocalNamed(name: string) | Remote(address: string)

  /** `LocalRef(handle, id)`. */
  datatype LocalRef = LocalRef(handle: SlabHandle, id: u64)

  /** An `Arc<dyn MessageSender<M>>`: a local reference, or a sender the
      delegate made, known only by identity. */
  datatype MessageSender = LocalSender(reference: LocalRef) | DelegateSender(sender: nat)

  /** `get`'s wrapping of a local reference as a message sender. */
  function AsSender(o: Option<LocalRef>): (r: Option<MessageSender>)
    ensures r.Some? <==> o.Some?
    ensures r.Some? ==> r.value == LocalSender(o.value)
  {
    match o
    case None => None
    case Some(h) => Some(LocalSender(h))
  }

  /** The name map built by a sequence of bindings, later ones winning. */
  function BindAll(bindings: seq<(string, u64)>): (ids: map<string, u64>)
  {
    if bindings == [] then map[]
    else BindAll(bindings[..|bindings| - 1])[bindings[|bindings| - 1].0 := bindings[|bindings| - 1].1]
  }

  /** `name` was bound at some point. */
  ghost predicate EverBound(bindings: seq<(string, u64)>, name: string)
  {
    exists i :: 0 <= i < |bindings| && bindings[i].0 == name
  }

  /** `id` is the id most recently bound to `name`. */
  ghost predicate LastBinding(bindings: seq<(string, u64)>, name: string, id: u64)
  {
    exists i :: 0 <= i < |bindings| && bindings[i] == (name, id) &&
                forall j :: i < j < |bindings| ==> bindings[j].0 != name
  }

  /** A name has at most one most recent binding. */
  lemma LastBindingUnique(bindings: seq<(string, u64)>, name: string, a: u64, b: u64)
    requires LastBinding(bindings, name, a) && LastBinding(bindings, name, b)
    ensures a == b
  {
    var i :| 0 <= i < |bindings| && bindings[i] == (name, a) &&
             forall j :: i < j < |bindings| ==> bindings[j].0 != name;
    var k :| 0 <= k < |bindings| && bindings[k] == (name, b) &&
             forall j :: k < j < |bindings| ==> bindings[j].0 != name;
    assert !(i < k) && !(k < i);
  }

  /** The name map holds a name exactly when it was ever bound, and then
      under the id most recently bound to it. */
  lemma {:induction false} BindAllIsLastBinding(bindings: seq<(string, u64)>, name: string)
    ensures name in BindAll(bindings) <==> EverBound(bindings, name)
    ensures name in BindAll(bindings) ==> LastBinding(bindings, name, BindAll(bindings)[name])
  {
    if bindings != [] {
      var n := |bindings| - 1;
      var init := bindings[..n];
      BindAllIsLastBinding(init, name);
      if bindings[n].0 == name {
        assert bindings[n] == (name, bindings[n].1);
      } else {
        if EverBound(bindings, name) {
          var i :| 0 <= i < |bindings| && bindings[i].0 == name;
          assert init[i].0 == name;
        }
        if EverBound(init, name) {
          var i :| 0 <= i < |init| && init[i].0 == name;
          assert bindings[i].0 == name;
        }
        if name in BindAll(init) {
          var id := BindAll(init)[name];
          var i :| 0 <= i < |init| && init[i] == (name, id) &&
                   forall j :: i < j < |init| ==> init[j].0 != name;
          assert bindings[i] == (name, id);
          assert forall j :: i < j < |bindings| ==> bindings[j].0 != name by {
            forall j | i < j < |bindings| ensures bindings[j].0 != name {
              if j < n { assert init[j] == bindings[j]; }
            }
          }
        }
      }
    }
  }

  /** `Arc<RwLock<Slacktor>>`: the shared slab, seen as the calls made on
      it so far. */
  class Slab<S> {
    const behaviour: SlabBehaviour<S>
    var ops: seq<SlabOp<S>>

    /** `Slacktor::new()`. */
    constructor (behaviour: SlabBehaviour<S>)
      ensures this.behaviour == behaviour && ops == []
    {
      this.behaviour := behaviour;
      ops := [];
    }
  }

  /** `Arc<RwLock<BTreeMap<String, u64>>>`: the shared name map. */
  class NameMap {
    var ids: map<string, u64>
    /** The bindings made so far, in order. */
    ghost var bindings: seq<(string, u64)>

    ghost predicate Valid()
      reads this
    {
      ids == BindAll(bindings)
    }

    constructor ()
      ensures Valid() && ids == map[] && bindings == []
    {
      ids := map[];
      bindings := [];
    }
  }

  /** `Arc<D>`: the shared foreign delegate; `getActor(kind, messageType, id)`
      is its `get_actor::<A, M>(id)`, which is not part of this model. */
  class Delegate {
    const getActor: (TypeTag, TypeTag, Identifier) -> Option<MessageSender>

    constructor (getActor: (TypeTag, TypeTag, Identifier) -> Option<MessageSender>)
      ensures this.getActor == getActor
    {
      this.getActor := getActor;
    }
  }

  /** `Fluxion<D>`. Every field is shared: clones of one registry see the
      same slab, names and delegate. `usizeMax` is the platform's
      `usize::MAX`. */
  class Fluxion<S> {
    const slacktor: Slab<S>
    const actorIds: NameMap
    const systemId: string
    const delegate: Delegate
    const usizeMax: nat

    ghost predicate Valid()
      reads actorIds
    {
      actorIds.Valid()
    }

    /** `Fluxion::new`: a fresh slab, an empty name map, and the delegate. */
    constructor (id: string, delegateGetActor: (TypeTag, TypeTag, Identifier) -> Option<MessageSender>,
                 behaviour: SlabBehaviour<S>, usizeMax: nat)
      ensures Valid()
      ensures fresh(slacktor) && fresh(actorIds) && fresh(delegate)
      ensures slacktor.behaviour == behaviour && slacktor.ops == []
      ensures actorIds.ids == map[] && actorIds.bindings == []
      ensures systemId == id && delegate.getActor == delegateGetActor && this.usizeMax == usizeMax
    {
      slacktor := new Slab(behaviour);
      actorIds := new NameMap();
      systemId := id;
      delegate := new Delegate(delegateGetActor);
      this.usizeMax := usizeMax;
    }

    /** The body of `Clone::clone`: another registry over the same shared
        state. */
    constructor Share(other: Fluxion<S>)
      ensures slacktor == other.slacktor && actorIds == other.actorIds
      ensures systemId == other.systemId && delegate == other.delegate && usizeMax == other.usizeMax
    {
      slacktor := other.slacktor;
      actorIds := other.actorIds;
      systemId := other.systemId;
      delegate := other.delegate;
      usizeMax := other.usizeMax;
    }

    /** `Clone::clone`. */
    method Clone() returns (c: Fluxion<S>)
      ensures fresh(c)
      ensures c.slacktor == slacktor && c.actorIds == actorIds
      ensures c.systemId == systemId && c.delegate == delegate && c.usizeMax == usizeMax
    {
      c := new Fluxion.Share(this);
    }

    /** `get_id`. */
    function GetId(): (r: string)
      ensures r == systemId
    {
      systemId
    }

    /** `get_delegate`. */
    function GetDelegate(): (r: Delegate)
      ensures r == delegate
    {
      delegate
    }

    /** What the name map says about `name`. */
    function NamedId(name: string): (id: Option<u64>)
      reads actorIds
    {
      if name in actorIds.ids then Some(actorIds.ids[name]) else None
    }

    /** What `get_local::<kind>(id)` returns: nothing for an id beyond
        `usize`, else the slab's handle at that index, if it holds an actor
        of that type, paired with the id asked for. */
    function LocalRefAt(kind: TypeTag, id: u64): (r: Option<LocalRef>)
      reads slacktor
      ensures id > usizeMax ==> r == None
      ensures id <= usizeMax ==> (r.Some? <==> slacktor.behaviour.get(slacktor.ops, kind, id).Some?)
      ensures r.Some? ==> r.value == LocalRef(slacktor.behaviour.get(slacktor.ops, kind, id).value, id)
    {
      if id > usizeMax then None
      else
        match slacktor.behaviour.get(slacktor.ops, kind, id)
        case None => None
        case Some(handle) => Some(LocalRef(handle, id))
    }

    /** `get_actor_id`: the id most recently bound to `name`, if any. */
    method GetActorId(name: string) returns (r: Option<u64>)
      requires Valid()
      ensures r == NamedId(name)
      ensures r.Some? <==> EverBound(actorIds.bindings, name)
      ensures r.Some? ==> LastBinding(actorIds.bindings, name, r.value)
    {
      BindAllIsLastBinding(actorIds.bindings, name);
      r := if name in actorIds.ids then Some(actorIds.ids[name]) else None;
    }

    /** `add`: the actor is initialized first; if that fails, its error is
        returned and the slab is not touched. Otherwise the initialized
        actor is spawned, wrapped with the slab's next id, and the index the
        slab returns is the result. */
    method Add<E>(actor: Actor<S>, initialize: Actor<S> -> Result<Actor<S>, E>) returns (r: Result<u64, E>)
      modifies slacktor
      ensures initialize(actor).Err? ==>
                r == Err(initialize(actor).error) && slacktor.ops == old(slacktor.ops)
      ensures initialize(actor).Ok? ==>
                r == Ok(AsU64(slacktor.behaviour.spawnIndex(old(slacktor.ops)))) &&
                slacktor.ops == old(slacktor.ops) +
                  [Spawn(initialize(actor).value, slacktor.behaviour.nextId(old(slacktor.ops)))]
    {
      var initialized := initialize(actor);
      if initialized.Err? {
        return Err(initialized.error);
      }
      var contextId := slacktor.behaviour.nextId(slacktor.ops);
      var index := slacktor.behaviour.spawnIndex(slacktor.ops);
      slacktor.ops := slacktor.ops + [Spawn(initialized.value, contextId)];
      return Ok(AsU64(index));
    }

    /** `add_named`: `add`, then, only if it succeeded, bind `name` to the
        new id, replacing any earlier binding of that name. */
    method AddNamed<E>(name: string, actor: Actor<S>, initialize: Actor<S> -> Result<Actor<S>, E>)
      returns (r: Result<u64, E>)
      requires Valid()
      modifies slacktor, actorIds
      ensures Valid()
      ensures initialize(actor).Err? ==>
                r == Err(initialize(actor).error) && slacktor.ops == old(slacktor.ops) &&
                actorIds.ids == old(actorIds.ids) && actorIds.bindings == old(actorIds.bindings)
      ensures initialize(actor).Ok? ==>
                r == Ok(AsU64(slacktor.behaviour.spawnIndex(old(slacktor.ops)))) &&
                slacktor.ops == old(slacktor.ops) +
                  [Spawn(initialize(actor).value, slacktor.behaviour.nextId(old(slacktor.ops)))] &&
                actorIds.ids == old(actorIds.ids)[name := r.value] &&
                actorIds.bindings == old(actorIds.bindings) + [(name, r.value)]
    {
      r := Add(actor, initialize);
      if r.Err? {
        return;
      }
      var bindings := actorIds.bindings + [(name, r.value)];
      assert bindings[..|bindings| - 1] == actorIds.bindings;
      actorIds.ids := actorIds.ids[name := r.value];
      actorIds.bindings := bindings;
    }

    /** `kill::<kind>(id)`: an id beyond `usize` changes nothing; otherwise
        the slab is asked to kill that index and then to shrink. */
    method Kill(kind: TypeTag, id: u64)
      modifies slacktor
      ensures id > usizeMax ==> slacktor.ops == old(slacktor.ops)
      ensures id <= usizeMax ==> slacktor.ops == old(slacktor.ops) + [SlabOp.Kill(kind, id), Shrink]
    {
      if id > usizeMax {
        return;
      }
      slacktor.ops := slacktor.ops + [SlabOp.Kill(kind, id)];
      slacktor.ops := slacktor.ops + [Shrink];
    }

    /** `get_local::<kind>(id)`. */
    method GetLocal(kind: TypeTag, id: u64) returns (r: Option<LocalRef>)
      ensures r == LocalRefAt(kind, id)
      ensures r.Some? ==> r.value.id == id
    {
      if id > usizeMax {
        return None;
      }
      var handle := slacktor.behaviour.get(slacktor.ops, kind, id);
      r := if handle.Some? then Some(LocalRef(handle.value, id)) else None;
    }

    /** `get::<kind, M>(id)`, where `messageType` is the tag of `M`. */
    method Get(kind: TypeTag, messageType: TypeTag, id: Identifier) returns (r: Option<MessageSender>)
      requires Valid()
      // a local id is looked up in the slab
      ensures id.Local? ==> r == AsSender(LocalRefAt(kind, id.id))
      // a local name gives nothing if unbound, else the actor under its id
      ensures id.LocalNamed? && NamedId(id.name).None? ==> r == None
      ensures id.LocalNamed? && NamedId(id.name).Some? ==> r == AsSender(LocalRefAt(kind, NamedId(id.name).value))
      // anything else is the delegate's answer
      ensures id.Remote? ==> r == delegate.getActor(kind, messageType, id)
    {
      match id
      case Local(local) =>
        var h := GetLocal(kind, local);
        r := AsSender(h);
      case LocalNamed(name) =>
        var named := GetActorId(name);
        if named.None? {
          return None;
        }
        var h := GetLocal(kind, named.value);
        r := AsSender(h);
      case Remote(_) =>
        r := delegate.getActor(kind, messageType, id);
    }

    /** `shutdown`: the slab is asked to shut down. */
    method Shutdown()
      modifies slacktor
      ensures slacktor.ops == old(slacktor.ops) + [SlabOp.Shutdown]
    {
      slacktor.ops := slacktor.ops + [SlabOp.Shutdown];
    }
  }

  /** A name bound through one clone is seen through the original. */
  method NamesSharedAcrossClones<S, E>(f: Fluxion<S>, name: string, actor: Actor<S>,
                                       initialize: Actor<S> -> Result<Actor<S>, E>)
    returns (added: Result<u64, E>, found: Option<u64>)
    requires f.Valid()
    modifies f.slacktor, f.actorIds
    ensures added.Ok? ==> found == Some(added.value)
    ensures added.Err? ==> found == old(f.NamedId(name))
  {
    var c := f.Clone();
    added := c.AddNamed(name, actor, initialize);
    found := f.GetActorId(name);
  }

  /** Adding a second actor under a taken name rebinds the name to the new
      id; the first actor is not killed: both spawns stay in the slab's
      history and no kill follows them. */
  method RebindName<S, E>(f: Fluxion<S>, name: string, first: Actor<S>, second: Actor<S>,
                          initialize: Actor<S> -> Result<Actor<S>, E>)
    returns (a: Result<u64, E>, b: Result<u64, E>, found: Option<u64>)
    requires f.Valid()
    modifies f.slacktor, f.actorIds
    ensures a.Ok? && b.Ok? ==> found == Some(b.value)
    ensures a.Ok? && b.Ok? ==>
              |f.slacktor.ops| == |old(f.slacktor.ops)| + 2 &&
              f.slacktor.ops[|f.slacktor.ops| - 2].Spawn? && f.slacktor.ops[|f.slacktor.ops| - 1].Spawn?
  {
    a := f.AddNamed(name, first, initialize);
    b := f.AddNamed(name, second, initialize);
    found := f.GetActorId(name);
  }
}
