/** Types shared by the models of the actor table, the registry, foreign
    messages and the supervisor. */
module Common {

  /** Rust's `Option<T>`. */
  datatype Option<+T> = None | Some(value: T) {
    /** `Option::unwrap_or`. */
    function GetOr(default: T): (r: T) {
      if Some? then value else default
    }
  }

  /** Rust's `Result<T, E>`. */
  datatype Result<+T, +E> = Ok(value: T) | Err(error: E)

  /** The identity of a Rust type. A `dyn Any` downcast to `T` succeeds
      exactly when the stored value's tag is the tag of `T`. */
  type TypeTag = string

  /** A channel (mpsc or oneshot), known only by its identity. */
  type ChannelId = nat

  newtype u8 = x: int | 0 <= x < 0x100

  const U64_LIMIT: int := 0x1_0000_0000_0000_0000

  type u64 = x: int | 0 <= x < U64_LIMIT

  /** Rust's `x as u64` on an unsigned value: the low 64 bits. */
  function AsU64(x: nat): (r: u64)
    ensures x < U64_LIMIT ==> r == x
  {
    x % U64_LIMIT
  }

  /** A parsed `ActorPath`. The path parser is not part of this model, so a
      path is only what the core observes of it: its first system (`first()`),
      the list of its systems (`systems()`) and its actor part (`actor()`).
      The model assumes no relation between the three. */
  datatype ActorPath = ActorPath(first: Option<string>, systems: seq<string>, actor: string)

  /** The variants of `ActorError` that the modelled code raises itself;
      every other variant, raised only by code outside this model, is
      `OtherError`. */
  datatype ActorError =
    | ForeignSendFail
    | ForeignTargetNotFound
    | ForeignRespondFailed
    | ForeignResponseUnexpected
    | ForeignResponseRelayFail
    | OtherError(code: nat)

  /** `SystemError`, as returned by `System::add_actor`. */
  datatype SystemError = InvalidPath | ActorExists
}
