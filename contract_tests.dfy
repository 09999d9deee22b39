/** The scenarios of the unit tests in src/contract.rs, written as clients
    of `Counter` that rely on its method contracts alone. The host prefixes
    event types with "wasm-"; that prefix is not part of this model. */
module ContractTests {
  import opened Wrappers
  import opened Decimal
  import opened Msg
  import opened Contract
  import opened ContractProperties

  method Instantiation() {
    var counter := new Counter();
    var instantiated := counter.Instantiate(MessageInfo("owner"), InstantiateMsg(7));
    assert instantiated.Ok?;
    var resp := Query(counter.count, Count);
    assert resp == Ok(CountResp(7));
  }

  method QueryBeforeInstantiate() {
    var counter := new Counter();
    var resp := Query(counter.count, Count);
    assert resp == Err(NotFound);
    var r := counter.Execute(MessageInfo("user"), Increment);
    assert r == Err(NotFound) && counter.count == None;
  }

  method ExecIncrement() {
    var counter := new Counter();
    var _ := counter.Instantiate(MessageInfo("owner"), InstantiateMsg(7));
    var r := counter.Execute(MessageInfo("user"), Increment);
    assert r.Ok?;
    var resp := r.value;
    assert FindEvent(resp.events, "incremented") == Some(Event("incremented", [Attribute("addr", "user")]));
    assert FindAttribute(resp.attributes, "action") == Some("increment");
    assert FindAttribute(resp.attributes, "old_count") == Some("7");
    assert FindAttribute(resp.attributes[2..], "new_count") == Some("8");
    assert FindAttribute(resp.attributes, "new_count") == Some("8");
    assert Query(counter.count, Count) == Ok(CountResp(8));
  }

  method ExecDecrement() {
    var counter := new Counter();
    var _ := counter.Instantiate(MessageInfo("owner"), InstantiateMsg(7));
    var r := counter.Execute(MessageInfo("user"), Decrement);
    assert r.Ok?;
    var resp := r.value;
    assert FindEvent(resp.events, "decremented") == Some(Event("decremented", [Attribute("addr", "user")]));
    assert FindAttribute(resp.attributes, "action") == Some("decrement");
    assert FindAttribute(resp.attributes, "old_count") == Some("7");
    assert FindAttribute(resp.attributes[2..], "new_count") == Some("6");
    assert FindAttribute(resp.attributes, "new_count") == Some("6");
  }

  method ExecReset() {
    var counter := new Counter();
    var _ := counter.Instantiate(MessageInfo("owner"), InstantiateMsg(7));
    var r := counter.Execute(MessageInfo("user"), Reset);
    assert r.Ok?;
    var resp := r.value;
    assert FindEvent(resp.events, "reset") == Some(Event("reset", [Attribute("addr", "user")]));
    assert FindAttribute(resp.attributes, "action") == Some("reset");
    assert FindAttribute(resp.attributes, "old_count") == Some("7");
    assert FindAttribute(resp.attributes[2..], "new_count") == Some("0");
    assert FindAttribute(resp.attributes, "new_count") == Some("0");
  }

  method ExecSet() {
    var counter := new Counter();
    var _ := counter.Instantiate(MessageInfo("owner"), InstantiateMsg(7));
    var r := counter.Execute(MessageInfo("user"), Set(888));
    assert r.Ok?;
    var resp := r.value;
    assert FindEvent(resp.events, "set") == Some(Event("set", [Attribute("addr", "user")]));
    assert FindAttribute(resp.attributes, "action") == Some("set");
    assert FindAttribute(resp.attributes, "old_count") == Some("7");
    assert NatToDecimal(88) == "88";
    assert NatToDecimal(888) == "888";
    assert FindAttribute(resp.attributes[2..], "new_count") == Some("888");
    assert FindAttribute(resp.attributes, "new_count") == Some("888");
  }
}
