/** The meaning of the MonstiClient operations that take several steps, as functions of the
    broker's answers, and what they promise. The class in module Service is proved against
    these functions. */
module ClientSpec {
  import opened Base
  import opened Codec
  import opened Protocol

  // ---------------------------------------------------------------------------------------
  // Node types and nodes

  /** `s.GetNodeType` as the resolver `dataToNode` is given, after the events `t`:
      the stored error while the client is failed, otherwise the broker's answer. */
  function ResolverAt<P>(broker: Broker<P>, error: Option<Error>, t: seq<Event<P>>): (r: string -> Result<NodeType>)
    ensures forall id :: error.Some? ==> r(id) == Err(error.value)
    ensures forall id :: error.None? && r(id).Ok? ==> r(id) == AsNodeType(broker(t, Call.GetNodeType(id)))
    ensures forall id :: error.None? && r(id).Err? ==>
      AsNodeType(broker(t, Call.GetNodeType(id))).Err?
      && r(id).error == Wrapped("service: Error calling GetNodeType", AsNodeType(broker(t, Call.GetNodeType(id))).error)
  {
    id =>
      if error.Some? then Err(error.value)
      else
        match AsNodeType(broker(t, Call.GetNodeType(id)))
        case Err(e) => Err(Wrapped("service: Error calling GetNodeType", e))
        case Ok(nt) => Ok(nt)
  }

  /** The remote calls `dataToNode` makes for `data`: one GetNodeType for the envelope's type,
      when the data is a readable envelope and the client is not failed. */
  function ResolverEvents<P>(j: Json, error: Option<Error>, data: Bytes): (r: seq<Event<P>>)
    ensures |r| <= 1
    ensures |r| == 1 <==> |data| > 0 && j.unmarshal(data).Ok? && error.None?
    ensures |r| == 1 ==> r[0] == Rpc(Call.GetNodeType(j.unmarshal(data).value.nodeType))
  {
    if |data| > 0 && j.unmarshal(data).Ok? && error.None? then [Rpc(Call.GetNodeType(j.unmarshal(data).value.nodeType))]
    else []
  }

  /** `dataToNode(data, s.GetNodeType, ...)` after the events `t`: the decoded node and the
      events it adds. */
  function DecodeAt<V, P>(k: FieldKinds<V>, j: Json, broker: Broker<P>, error: Option<Error>,
                          t: seq<Event<P>>, data: Bytes): (r: (Result<Option<NodeState<V>>>, seq<Event<P>>))
    ensures |data| == 0 ==> r == (Ok(None), [])
    ensures r.0.Ok? && r.0.value.Some? ==> error.None? && |r.1| == 1
    ensures error.Some? ==> r.1 == [] && (|data| > 0 && j.unmarshal(data).Ok? ==> r.0.Err?)
  {
    (Decode(k, j, data, ResolverAt(broker, error, t)), ResolverEvents(j, error, data))
  }

  /** The loop of GetChildren over the reply entries, after the events `t`: every entry is
      decoded in order, and the first failure aborts the loop. */
  function DecodeChildren<V, P>(k: FieldKinds<V>, j: Json, broker: Broker<P>, error: Option<Error>,
                                t: seq<Event<P>>, entries: seq<Bytes>): (r: (Result<seq<Option<NodeState<V>>>>, seq<Event<P>>))
    ensures r.0.Ok? ==> |r.0.value| == |entries|
    decreases |entries|
  {
    if entries == [] then (Ok([]), [])
    else
      var prev := DecodeChildren(k, j, broker, error, t, entries[..|entries| - 1]);
      if prev.0.Err? then prev
      else
        var step := DecodeAt(k, j, broker, error, t + prev.1, entries[|entries| - 1]);
        if step.0.Err? then (Err(Wrapped("service: Could not convert node", step.0.error)), prev.1 + step.1)
        else (Ok(prev.0.value + [step.0.value]), prev.1 + step.1)
  }

  /** One more step of the loop: entry `i`, after the entries before it. */
  lemma DecodeChildrenNext<V, P>(k: FieldKinds<V>, j: Json, broker: Broker<P>, error: Option<Error>,
                                 t: seq<Event<P>>, entries: seq<Bytes>, i: nat)
    requires i < |entries|
    ensures var prev := DecodeChildren(k, j, broker, error, t, entries[..i]);
      var step := DecodeAt(k, j, broker, error, t + prev.1, entries[i]);
      DecodeChildren(k, j, broker, error, t, entries[..i + 1]) ==
        if prev.0.Err? then prev
        else if step.0.Err? then (Err(Wrapped("service: Could not convert node", step.0.error)), prev.1 + step.1)
        else (Ok(prev.0.value + [step.0.value]), prev.1 + step.1)
  {
    assert entries[..i + 1][..i] == entries[..i];
  }

  /** After a failure on a prefix, no later entry is decoded and no further call is made. */
  lemma {:induction false} DecodeChildrenStops<V, P>(k: FieldKinds<V>, j: Json, broker: Broker<P>, error: Option<Error>,
                                                     t: seq<Event<P>>, entries: seq<Bytes>, i: nat)
    requires i <= |entries| && DecodeChildren(k, j, broker, error, t, entries[..i]).0.Err?
    ensures DecodeChildren(k, j, broker, error, t, entries) == DecodeChildren(k, j, broker, error, t, entries[..i])
    decreases |entries| - i
  {
    if i < |entries| {
      DecodeChildrenNext(k, j, broker, error, t, entries, i);
      DecodeChildrenStops(k, j, broker, error, t, entries, i + 1);
    } else {
      assert entries[..i] == entries;
    }
  }

  /** The loop after entry `i`, given the loop before it: a failing entry ends the whole loop
      with that failure, and a good one extends the children by its node. */
  lemma DecodeChildrenStep<V, P>(k: FieldKinds<V>, j: Json, broker: Broker<P>, error: Option<Error>,
                                 t: seq<Event<P>>, entries: seq<Bytes>, i: nat,
                                 states: seq<Option<NodeState<V>>>, events: seq<Event<P>>)
    requires i < |entries| && DecodeChildren(k, j, broker, error, t, entries[..i]) == (Ok(states), events)
    ensures var step := DecodeAt(k, j, broker, error, t + events, entries[i]);
      && (step.0.Err? ==>
            DecodeChildren(k, j, broker, error, t, entries) == (Err(Wrapped("service: Could not convert node", step.0.error)), events + step.1))
      && (step.0.Ok? ==>
            DecodeChildren(k, j, broker, error, t, entries[..i + 1]) == (Ok(states + [step.0.value]), events + step.1))
  {
    DecodeChildrenNext(k, j, broker, error, t, entries, i);
    if DecodeAt(k, j, broker, error, t + events, entries[i]).0.Err? {
      DecodeChildrenStops(k, j, broker, error, t, entries, i + 1);
    }
  }

  /** On success, child `i` is the decoding of entry `i`, made after the calls of the
      entries before it. */
  lemma {:induction false} DecodeChildrenEach<V, P>(k: FieldKinds<V>, j: Json, broker: Broker<P>, error: Option<Error>,
                                                    t: seq<Event<P>>, entries: seq<Bytes>, i: nat)
    requires DecodeChildren(k, j, broker, error, t, entries).0.Ok? && i < |entries|
    ensures var before := DecodeChildren(k, j, broker, error, t, entries[..i]).1;
      var step := DecodeAt(k, j, broker, error, t + before, entries[i]);
      step.0.Ok? && DecodeChildren(k, j, broker, error, t, entries).0.value[i] == step.0.value
    decreases |entries|
  {
    var n := |entries|;
    var init := entries[..n - 1];
    var prev := DecodeChildren(k, j, broker, error, t, init);
    assert prev.0.Ok?;
    if i < n - 1 {
      DecodeChildrenEach(k, j, broker, error, t, init, i);
      assert init[..i] == entries[..i];
      assert init[i] == entries[i];
    } else {
      assert init == entries[..i];
    }
  }

  // ---------------------------------------------------------------------------------------
  // Signals

  /** The index of the first reply that does not decode, or |ret| when all decode. */
  function FirstFailure<P>(decode: Bytes -> Result<P>, ret: seq<Bytes>): (n: nat)
    ensures n <= |ret|
    ensures forall i :: 0 <= i < n ==> decode(ret[i]).Ok?
    ensures n < |ret| ==> decode(ret[n]).Err?
    decreases |ret|
  {
    if ret == [] then 0
    else if decode(ret[0]).Err? then 0
    else 1 + FirstFailure(decode, ret[1..])
  }

  /** The result slice EmitSignal leaves behind: `len(ret)` elements, the decoded replies up
      to the first failure, the zero value after it. */
  function Collected<P>(decode: Bytes -> Result<P>, ret: seq<Bytes>, zero: P): (out: seq<P>)
    ensures |out| == |ret|
    ensures forall i :: 0 <= i < |ret| ==> out[i] == if i < FirstFailure(decode, ret) then decode(ret[i]).value else zero
  {
    var n := FirstFailure(decode, ret);
    seq(|ret|, i requires 0 <= i < |ret| => if i < n then decode(ret[i]).value else zero)
  }

  /** When every reply decodes, the collected results are exactly the decoded replies. */
  lemma CollectedAll<P>(decode: Bytes -> Result<P>, ret: seq<Bytes>, zero: P)
    requires forall i :: 0 <= i < |ret| ==> decode(ret[i]).Ok?
    ensures var out := Collected(decode, ret, zero);
      |out| == |ret| && forall i :: 0 <= i < |ret| ==> decode(ret[i]) == Ok(out[i])
  {
  }

  /** WaitSignal after the events `t`: wait for a dispatch, decode its argument, call the
      handler registered under its name, encode the handler's result and report it back.
      The error returned and the events added. */
  function WaitOutcome<P>(broker: Broker<P>, g: Gob<P>, id: string, handlers: map<string, Handler<P>>,
                          t: seq<Event<P>>): (r: (Option<Error>, seq<Event<P>>))
    ensures r.0.None? ==> |r.1| == 3 && r.1[2].Rpc? && r.1[2].call.FinishSignal? && r.1[2].call.clientId == id
  {
    var wait := Call.WaitSignal(id);
    match AsSignal(broker(t, wait))
    case Err(e) => (Some(Wrapped("service: Monsti.WaitSignal error", e)), [Rpc(wait)])
    case Ok(signal) =>
      match g.decode(signal.1)
      case Err(e) => (Some(Wrapped("service: Could not decode signal argumens", e)), [Rpc(wait)])
      case Ok(arg) =>
        if signal.0 !in handlers then (Some(Panic("call of nil signal handler " + signal.0)), [Rpc(wait)])
        else
          var handled := [Rpc(wait), Handled(signal.0, arg)];
          match handlers[signal.0](arg)
          case Err(e) => (Some(Wrapped("service: Signal handler for " + signal.0 + " returned error", e)), handled)
          case Ok(ret) =>
            match g.encode(ret)
            case Err(e) => (Some(Wrapped("service: Could not encode signal return value", e)), handled)
            case Ok(encoded) =>
              var finish := Call.FinishSignal(id, encoded);
              (WrapErr("service: Monsti.FinishSignal error", broker(t + handled, finish)), handled + [Rpc(finish)])
  }

  /** The order of WaitSignal: first the WaitSignal call for this client; then, only for a
      decodable dispatch with a registered handler, one call of that handler with the decoded
      argument; then, only if the handler succeeded and its result encoded, one FinishSignal
      call carrying this client's id and the encoded result. Nothing else happens. */
  lemma WaitSignalOrder<P>(broker: Broker<P>, g: Gob<P>, id: string, handlers: map<string, Handler<P>>, t: seq<Event<P>>)
    ensures var (err, ev) := WaitOutcome(broker, g, id, handlers, t);
      var signal := AsSignal(broker(t, Call.WaitSignal(id)));
      && 1 <= |ev| <= 3
      && ev[0] == Rpc(Call.WaitSignal(id))
      && (|ev| >= 2 ==>
            && signal.Ok? && g.decode(signal.value.1).Ok? && signal.value.0 in handlers
            && ev[1] == Handled(signal.value.0, g.decode(signal.value.1).value))
      && (|ev| == 3 ==>
            var ret := handlers[signal.value.0](g.decode(signal.value.1).value);
            && ret.Ok? && g.encode(ret.value).Ok?
            && ev[2] == Rpc(Call.FinishSignal(id, g.encode(ret.value).value)))
      && (|ev| < 3 ==> err.Some?)
  {
  }

  /** The converse of WaitSignalOrder: a decodable dispatch with a registered handler does
      call that handler, and a successful, encodable result is reported with FinishSignal,
      whose outcome is WaitSignal's error. */
  lemma WaitSignalProgress<P>(broker: Broker<P>, g: Gob<P>, id: string, handlers: map<string, Handler<P>>, t: seq<Event<P>>)
    ensures var (err, ev) := WaitOutcome(broker, g, id, handlers, t);
      var signal := AsSignal(broker(t, Call.WaitSignal(id)));
      && (signal.Ok? && g.decode(signal.value.1).Ok? && signal.value.0 in handlers ==> |ev| >= 2)
      && (signal.Ok? && g.decode(signal.value.1).Ok? && signal.value.0 in handlers ==>
            var ret := handlers[signal.value.0](g.decode(signal.value.1).value);
            ret.Ok? && g.encode(ret.value).Ok? ==>
              && |ev| == 3
              && ev[2] == Rpc(Call.FinishSignal(id, g.encode(ret.value).value))
              && err == WrapErr("service: Monsti.FinishSignal error", broker(t + ev[..2], ev[2].call)))
  {
  }

  /** A handler that fails makes WaitSignal fail with the handler's error, and no
      FinishSignal is sent. */
  lemma WaitSignalHandlerFails<P>(broker: Broker<P>, g: Gob<P>, id: string, handlers: map<string, Handler<P>>,
                                  t: seq<Event<P>>, name: string, args: Bytes, arg: P, e: Error)
    requires broker(t, Call.WaitSignal(id)) == Ok(Signal(name, args))
    requires g.decode(args) == Ok(arg) && name in handlers && handlers[name](arg) == Err(e)
    ensures WaitOutcome(broker, g, id, handlers, t) ==
      (Some(Wrapped("service: Signal handler for " + name + " returned error", e)), [Rpc(Call.WaitSignal(id)), Handled(name, arg)])
  {
  }

  // ---------------------------------------------------------------------------------------
  // Small sentinel rules

  /** `getConfig`: an empty reply leaves `out` as it is; otherwise the reply is the mapping
      `{name: value}` whose entries come in the order reflection lists them, and the value of the
      first entry replaces `out` unless it is null. Decoding an empty mapping panics. */
  function GetConfig<T>(reply: Bytes, out: T, unmarshal: Bytes -> Result<seq<(string, Option<T>)>>): (r: (T, Option<Error>))
    ensures |reply| == 0 ==> r == (out, None)
    ensures r.1.Some? ==> r.0 == out
    ensures r.0 != out ==>
      && |reply| > 0 && unmarshal(reply).Ok? && |unmarshal(reply).value| > 0
      && unmarshal(reply).value[0].1 == Some(r.0) && r.1.None?
    ensures |reply| > 0 && unmarshal(reply).Ok? && |unmarshal(reply).value| > 0 && unmarshal(reply).value[0].1.None? ==>
      r == (out, None)
    ensures |reply| > 0 && unmarshal(reply).Ok? && |unmarshal(reply).value| > 0 && unmarshal(reply).value[0].1.Some? ==>
      r == (unmarshal(reply).value[0].1.value, None)
    ensures |reply| > 0 && unmarshal(reply).Err? ==>
      r == (out, Some(Wrapped("service: Could not decode configuration", unmarshal(reply).error)))
    ensures |reply| > 0 && unmarshal(reply).Ok? && |unmarshal(reply).value| == 0 ==>
      r.0 == out && r.1.Some? && r.1.value.Panic?
  {
    if |reply| == 0 then (out, None)
    else
      match unmarshal(reply)
      case Err(e) => (out, Some(Wrapped("service: Could not decode configuration", e)))
      case Ok(entries) =>
        if |entries| == 0 then (out, Some(Panic("index out of range: reflect.Value.MapKeys()[0]")))
        else if entries[0].1.None? then (out, None)
        else (entries[0].1.value, None)
  }

  /** `GetRequest`'s sentinel: a reply whose id differs from the one asked for means
      "no such request". */
  function RequestFromReply(id: nat, req: Request): (r: Option<Request>)
    ensures r.Some? <==> req.id == id
    ensures r.Some? ==> r.value == req && r.value.id == id
  {
    if req.id != id then None else Some(req)
  }
}
