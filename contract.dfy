/** The counter state machine of src/contract.rs: one persisted `u32` slot,
    written by `instantiate`, read by `query`, and changed by the four
    `execute` operations. */
module Contract {
  import opened Wrappers
  import opened Decimal
  import opened Msg

  /** An account address; only its textual form matters here. */
  type Addr = string

  /** The caller's context; of `MessageInfo` only the sender is used. */
  datatype MessageInfo = MessageInfo(sender: Addr)

  datatype Attribute = Attribute(key: string, value: string)

  /** A named, attribute-bearing record emitted alongside a state change. */
  datatype Event = Event(ty: string, attributes: seq<Attribute>) {
    function AddAttribute(key: string, value: string): Event {
      this.(attributes := attributes + [Attribute(key, value)])
    }
  }

  /** What a successful call hands back to the host. */
  datatype Response = Response(attributes: seq<Attribute>, events: seq<Event>) {
    function AddAttribute(key: string, value: string): Response {
      this.(attributes := attributes + [Attribute(key, value)])
    }

    function AddEvent(event: Event): Response {
      this.(events := events + [event])
    }
  }

  /** `Response::new()`: no attributes, no events. */
  function NewResponse(): Response {
    Response([], [])
  }

  /** `Event::new(ty)`. */
  function NewEvent(ty: string): Event {
    Event(ty, [])
  }

  /** Why a call fails. `NotFound` is the error `COUNT.load` returns. `OverflowAbort`
      is not an error value of the source: it stands for the panic of `old_count + 1`
      at U32_MAX or `old_count - 1` at 0, which aborts the call before it saves. */
  datatype StdError =
    | NotFound
    | OverflowAbort

  type StdResult<T> = Result<T, StdError>

  /** The persisted `COUNT` item: `None` until the first save. */
  type Storage = Option<U32>

  /** `COUNT.load`: the stored value, or `NotFound` when nothing was saved. */
  function Load(storage: Storage): (r: StdResult<U32>)
    ensures r.Ok? <==> storage.Some?
    ensures r.Ok? ==> storage == Some(r.value)
    ensures r.Err? ==> r.error == NotFound
  {
    match storage
    case None => Err(NotFound)
    case Some(count) => Ok(count)
  }

  /** `query::count`: reads the slot and changes nothing. */
  function QueryCount(storage: Storage): (r: StdResult<CountResp>)
    ensures r.Ok? <==> storage.Some?
    ensures r.Ok? ==> r.value == CountResp(storage.value)
    ensures r.Err? ==> r.error == NotFound
  {
    match Load(storage)
    case Err(e) => Err(e)
    case Ok(count) => Ok(CountResp(count))
  }

  /** `query`: dispatch over `QueryMsg`; the binary encoding of the answer is not modelled. */
  function Query(storage: Storage, msg: QueryMsg): (r: StdResult<CountResp>)
    ensures r == QueryCount(storage)
  {
    match msg
    case Count => QueryCount(storage)
  }

  /** The response every mutation builds: one event carrying the caller's
      address, then the flat attributes action, old_count and new_count. */
  function MutationResponse(eventType: string, action: string, sender: Addr, oldCount: U32, newCount: U32): (r: Response)
    ensures r.events == [Event(eventType, [Attribute("addr", sender)])]
    ensures r.attributes == [
      Attribute("action", action),
      Attribute("old_count", NatToDecimal(oldCount)),
      Attribute("new_count", NatToDecimal(newCount))]
  {
    var event := NewEvent(eventType).AddAttribute("addr", sender);
    assert event.attributes == [Attribute("addr", sender)];
    assert NewResponse().AddEvent(event).events == [event];
    NewResponse()
      .AddEvent(event)
      .AddAttribute("action", action)
      .AddAttribute("old_count", NatToDecimal(oldCount))
      .AddAttribute("new_count", NatToDecimal(newCount))
  }

  /** The outcome of one call: what it returns and what the slot holds afterwards. */
  datatype Step = Step(result: StdResult<Response>, storage: Storage)

  /** `exec::increment`. */
  function IncrementStep(storage: Storage, sender: Addr): Step {
    match Load(storage)
    case Err(e) => Step(Err(e), storage)
    case Ok(oldCount) =>
      if oldCount == U32_MAX then Step(Err(OverflowAbort), storage)
      else Step(Ok(MutationResponse("incremented", "increment", sender, oldCount, oldCount + 1)), Some(oldCount + 1))
  }

  /** `exec::decrement`. */
  function DecrementStep(storage: Storage, sender: Addr): Step {
    match Load(storage)
    case Err(e) => Step(Err(e), storage)
    case Ok(oldCount) =>
      if oldCount == 0 then Step(Err(OverflowAbort), storage)
      else Step(Ok(MutationResponse("decremented", "decrement", sender, oldCount, oldCount - 1)), Some(oldCount - 1))
  }

  /** `exec::reset`. */
  function ResetStep(storage: Storage, sender: Addr): Step {
    match Load(storage)
    case Err(e) => Step(Err(e), storage)
    case Ok(oldCount) => Step(Ok(MutationResponse("reset", "reset", sender, oldCount, 0)), Some(0))
  }

  /** `exec::set`: no check of the new value against the old one. */
  function SetStep(storage: Storage, sender: Addr, newCount: U32): Step {
    match Load(storage)
    case Err(e) => Step(Err(e), storage)
    case Ok(oldCount) => Step(Ok(MutationResponse("set", "set", sender, oldCount, newCount)), Some(newCount))
  }

  /** The event type each mutation emits. */
  function EventType(msg: ExecuteMsg): string {
    match msg
    case Increment => "incremented"
    case Decrement => "decremented"
    case Reset => "reset"
    case Set(_) => "set"
  }

  /** The `action` attribute each mutation reports. */
  function Action(msg: ExecuteMsg): string {
    match msg
    case Increment => "increment"
    case Decrement => "decrement"
    case Reset => "reset"
    case Set(_) => "set"
  }

  /** `execute`: dispatch over `ExecuteMsg`. Every mutation loads before it
      saves, so on an empty slot it fails and the slot stays empty; a failed
      call never changes the slot; a successful one emits exactly one event,
      named after the operation and carrying the sender's address. */
  function ExecuteStep(storage: Storage, info: MessageInfo, msg: ExecuteMsg): (s: Step)
    ensures storage.None? ==> s == Step(Err(NotFound), None)
    ensures s.result.Err? ==> s.storage == storage
    ensures storage.Some? ==> s.storage.Some?
    ensures s.result.Ok? ==> s.result.value.events == [Event(EventType(msg), [Attribute("addr", info.sender)])]
  {
    match msg
    case Increment => IncrementStep(storage, info.sender)
    case Decrement => DecrementStep(storage, info.sender)
    case Reset => ResetStep(storage, info.sender)
    case Set(newCount) => SetStep(storage, info.sender, newCount)
  }

  /** One contract instance; `count` is its storage slot. */
  class Counter {
    var count: Storage

    /** A deployed instance before `instantiate` has run. */
    constructor ()
      ensures count == None
    {
      count := None;
    }

    /** `instantiate`: saves the starting value unconditionally. */
    method Instantiate(info: MessageInfo, msg: InstantiateMsg) returns (r: StdResult<Response>)
      modifies this
      ensures count == Some(msg.startingCount)
      ensures r == Ok(NewResponse())
    {
      var startingCount := msg.startingCount;
      count := Some(startingCount);
      r := Ok(NewResponse());
    }

    method Increment(info: MessageInfo) returns (r: StdResult<Response>)
      modifies this
      ensures Step(r, count) == IncrementStep(old(count), info.sender)
    {
      var loaded := Load(count);
      if loaded.Err? {
        return Err(loaded.error);
      }
      var oldCount := loaded.value;
      if oldCount == U32_MAX {
        return Err(OverflowAbort);
      }
      var newCount := oldCount + 1;
      var resp := MutationResponse("incremented", "increment", info.sender, oldCount, newCount);
      count := Some(newCount);
      r := Ok(resp);
    }

    method Decrement(info: MessageInfo) returns (r: StdResult<Response>)
      modifies this
      ensures Step(r, count) == DecrementStep(old(count), info.sender)
    {
      var loaded := Load(count);
      if loaded.Err? {
        return Err(loaded.error);
      }
      var oldCount := loaded.value;
      if oldCount == 0 {
        return Err(OverflowAbort);
      }
      var newCount := oldCount - 1;
      var resp := MutationResponse("decremented", "decrement", info.sender, oldCount, newCount);
      count := Some(newCount);
      r := Ok(resp);
    }

    method Reset(info: MessageInfo) returns (r: StdResult<Response>)
      modifies this
      ensures Step(r, count) == ResetStep(old(count), info.sender)
    {
      var loaded := Load(count);
      if loaded.Err? {
        return Err(loaded.error);
      }
      var oldCount := loaded.value;
      var newCount := 0;
      var resp := MutationResponse("reset", "reset", info.sender, oldCount, newCount);
      count := Some(newCount);
      r := Ok(resp);
    }

    method Set(info: MessageInfo, newCount: U32) returns (r: StdResult<Response>)
      modifies this
      ensures Step(r, count) == SetStep(old(count), info.sender, newCount)
    {
      var loaded := Load(count);
      if loaded.Err? {
        return Err(loaded.error);
      }
      var oldCount := loaded.value;
      var resp := MutationResponse("set", "set", info.sender, oldCount, newCount);
      count := Some(newCount);
      r := Ok(resp);
    }

    /** `execute`: runs the operation the message names. */
    method Execute(info: MessageInfo, msg: ExecuteMsg) returns (r: StdResult<Response>)
      modifies this
      ensures Step(r, count) == ExecuteStep(old(count), info, msg)
    {
      match msg
      case Increment => r := this.Increment(info);
      case Decrement => r := this.Decrement(info);
      case Reset => r := this.Reset(info);
      case Set(newCount) => r := this.Set(info, newCount);
    }
  }
}
