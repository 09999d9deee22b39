/** Properties of the counter state machine, stated over the step functions
    that the `Counter` methods are proved to follow. */
module ContractProperties {
  import opened Wrappers
  import opened Decimal
  import opened Msg
  import opened Contract

  /** The value of the first attribute with the given key, as a host-side
      observer finds it. */
  function FindAttribute(attrs: seq<Attribute>, key: string): (r: Option<string>)
    ensures r.Some? ==> Attribute(key, r.value) in attrs
    ensures r.Some? ==> exists i | 0 <= i < |attrs| ::
      attrs[i] == Attribute(key, r.value) && forall j | 0 <= j < i :: attrs[j].key != key
    ensures r.None? ==> forall i | 0 <= i < |attrs| :: attrs[i].key != key
  {
    if attrs == [] then None
    else if attrs[0].key == key then Some(attrs[0].value)
    else FindAttribute(attrs[1..], key)
  }

  /** The first event of the given type. */
  function FindEvent(events: seq<Event>, ty: string): (r: Option<Event>)
    ensures r.Some? ==> r.value in events && r.value.ty == ty
    ensures r.Some? ==> exists i | 0 <= i < |events| ::
      events[i] == r.value && forall j | 0 <= j < i :: events[j].ty != ty
    ensures r.None? ==> forall i | 0 <= i < |events| :: events[i].ty != ty
  {
    if events == [] then None
    else if events[0].ty == ty then Some(events[0])
    else FindEvent(events[1..], ty)
  }

  /** Increment from n below the maximum stores n + 1 and reports both counts. */
  lemma IncrementFrom(n: U32, sender: Addr)
    requires n < U32_MAX
    ensures IncrementStep(Some(n), sender).storage == Some(n + 1)
    ensures IncrementStep(Some(n), sender).result == Ok(Response(
      [Attribute("action", "increment"),
       Attribute("old_count", NatToDecimal(n)),
       Attribute("new_count", NatToDecimal(n + 1))],
      [Event("incremented", [Attribute("addr", sender)])]))
  {
  }

  /** Increment at the maximum aborts and leaves the slot as it was. */
  lemma IncrementAtMax(sender: Addr)
    ensures IncrementStep(Some(U32_MAX), sender) == Step(Err(OverflowAbort), Some(U32_MAX))
  {
  }

  /** Decrement from a positive n stores n - 1 and reports both counts. */
  lemma DecrementFrom(n: U32, sender: Addr)
    requires n > 0
    ensures DecrementStep(Some(n), sender).storage == Some(n - 1)
    ensures DecrementStep(Some(n), sender).result == Ok(Response(
      [Attribute("action", "decrement"),
       Attribute("old_count", NatToDecimal(n)),
       Attribute("new_count", NatToDecimal(n - 1))],
      [Event("decremented", [Attribute("addr", sender)])]))
  {
  }

  /** Decrement at zero aborts and leaves the slot as it was. */
  lemma DecrementAtZero(sender: Addr)
    ensures DecrementStep(Some(0), sender) == Step(Err(OverflowAbort), Some(0))
  {
  }

  /** Reset from any n stores 0 and reports n and "0". */
  lemma ResetFrom(n: U32, sender: Addr)
    ensures ResetStep(Some(n), sender).storage == Some(0)
    ensures ResetStep(Some(n), sender).result == Ok(Response(
      [Attribute("action", "reset"),
       Attribute("old_count", NatToDecimal(n)),
       Attribute("new_count", "0")],
      [Event("reset", [Attribute("addr", sender)])]))
  {
  }

  /** Set with any m from any n stores m, whatever the relation of m to n. */
  lemma SetFrom(n: U32, m: U32, sender: Addr)
    ensures SetStep(Some(n), sender, m).storage == Some(m)
    ensures SetStep(Some(n), sender, m).result == Ok(Response(
      [Attribute("action", "set"),
       Attribute("old_count", NatToDecimal(n)),
       Attribute("new_count", NatToDecimal(m))],
      [Event("set", [Attribute("addr", sender)])]))
  {
  }

  /** Resetting twice leaves the same slot as resetting once: 0. */
  lemma ResetIdempotent(storage: Storage, sender: Addr)
    ensures ResetStep(ResetStep(storage, sender).storage, sender).storage == ResetStep(storage, sender).storage
    ensures storage.Some? ==> ResetStep(storage, sender).storage == Some(0)
  {
  }

  /** Setting m twice leaves the same slot as setting it once, and a query
      afterwards answers m. */
  lemma SetIdempotent(storage: Storage, sender: Addr, m: U32)
    ensures SetStep(SetStep(storage, sender, m).storage, sender, m).storage == SetStep(storage, sender, m).storage
    ensures storage.Some? ==> Query(SetStep(storage, sender, m).storage, Count) == Ok(CountResp(m))
  {
  }

  /** Decrement undoes Increment, and Increment undoes Decrement, wherever
      neither aborts. */
  lemma IncrementDecrementInverse(n: U32, sender: Addr)
    ensures n < U32_MAX ==> DecrementStep(IncrementStep(Some(n), sender).storage, sender).storage == Some(n)
    ensures n > 0 ==> IncrementStep(DecrementStep(Some(n), sender).storage, sender).storage == Some(n)
  {
  }

  /** The only error an initialised slot can produce is the arithmetic abort,
      and it happens exactly at the two ends of the range. */
  lemma InitialisedFailsOnlyAtBounds(n: U32, info: MessageInfo, msg: ExecuteMsg)
    ensures ExecuteStep(Some(n), info, msg).result.Err? <==>
            (msg == Increment && n == U32_MAX) || (msg == Decrement && n == 0)
    ensures ExecuteStep(Some(n), info, msg).result.Err? ==>
            ExecuteStep(Some(n), info, msg).result.error == OverflowAbort
  {
  }

  /** What the tests observe of a successful mutation: the event named after
      the operation carries the sender under `addr`. */
  lemma EventNamesSender(storage: Storage, info: MessageInfo, msg: ExecuteMsg)
    requires ExecuteStep(storage, info, msg).result.Ok?
    ensures var events := ExecuteStep(storage, info, msg).result.value.events;
      && FindEvent(events, EventType(msg)).Some?
      && FindAttribute(FindEvent(events, EventType(msg)).value.attributes, "addr") == Some(info.sender)
  {
  }

  /** What the tests observe of a successful mutation's attributes: the
      action names the operation, and `old_count` and `new_count` are the
      decimal renderings that read back as the slot before and after. */
  lemma AttributesReportCounts(storage: Storage, info: MessageInfo, msg: ExecuteMsg)
    requires ExecuteStep(storage, info, msg).result.Ok?
    ensures storage.Some? && ExecuteStep(storage, info, msg).storage.Some?
    ensures var attrs := ExecuteStep(storage, info, msg).result.value.attributes;
      && |attrs| == 3 && [attrs[0].key, attrs[1].key, attrs[2].key] == ["action", "old_count", "new_count"]
      && FindAttribute(attrs, "action") == Some(Action(msg))
      && FindAttribute(attrs, "old_count").Some?
      && ParseDecimal(FindAttribute(attrs, "old_count").value) == Some(storage.value as nat)
      && FindAttribute(attrs, "new_count").Some?
      && ParseDecimal(FindAttribute(attrs, "new_count").value) == Some(ExecuteStep(storage, info, msg).storage.value as nat)
  {
    var s := ExecuteStep(storage, info, msg);
    ParseRender(storage.value);
    ParseRender(s.storage.value);
  }
}
