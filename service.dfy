/** `MonstiClient` of api/service/monsti.go: the RPC connection to the Monsti broker.
    Every operation first tests the sticky error and, while it is set, returns without
    touching the transport. */
module Service {
  import opened Base
  import opened Codec
  import opened Protocol
  import opened ClientSpec

  /** `n` is null exactly when there is no node state, and otherwise holds that state. */
  ghost predicate Matches<V>(n: Node?<V>, s: Option<NodeState<V>>)
    reads n
  {
    match s
    case None => n == null
    case Some(st) => n != null && n.State() == st
  }

  /** The method result `r` is the decoding `d`: the same error, or the decoded node. */
  ghost predicate Realizes<V>(r: Result<Node?<V>>, d: Result<Option<NodeState<V>>>)
    reads if r.Ok? then {r.value} else {}
  {
    match d
    case Err(e) => r == Err(e)
    case Ok(s) => r.Ok? && Matches(r.value, s)
  }

  /** Each node of `nodes` is the corresponding state of `states`. */
  ghost predicate AllMatch<V>(nodes: seq<Node?<V>>, states: seq<Option<NodeState<V>>>)
    reads nodes
  {
    |nodes| == |states| && forall i :: 0 <= i < |nodes| ==> Matches(nodes[i], states[i])
  }

  /** The method result `r` is the list of decodings `d`, element by element. */
  ghost predicate AllRealize<V>(r: Result<seq<Node?<V>>>, d: Result<seq<Option<NodeState<V>>>>)
    reads if r.Ok? then r.value else []
  {
    match d
    case Err(e) => r == Err(e)
    case Ok(states) => r.Ok? && AllMatch(r.value, states)
  }

  /** The error a caller of GetNode sees for a failed conversion. */
  function ConvertError<T>(r: Result<T>): Result<T>
  {
    if r.Err? then Err(Wrapped("service: Could not convert node", r.error)) else r
  }

  /** The field loop of `dataToNode`: starting from the initialised `defaults`, every field of
      `fs` whose raw entry is present is loaded into the node's map, in order. The loop works on
      a copy and stores it only on success: after an error the node is discarded by its caller,
      and its map is left as it was. */
  method LoadFields<V>(k: FieldKinds<V>, node: Node<V>, raw: RawFields, fs: seq<FieldType>, defaults: map<string, V>)
    returns (err: Option<Error>)
    modifies node`fields
    ensures match DecodeFields(k, raw, fs, defaults)
      case Err(e) => err == Some(e)
      case Ok(m) => err.None? && node.fields == m
    ensures err.Some? ==> node.fields == old(node.fields)
  {
    var fields := defaults;
    var i := 0;
    while i < |fs|
      invariant 0 <= i <= |fs|
      invariant DecodeFields(k, raw, fs[..i], defaults) == Ok(fields)
    {
      var field := fs[i];
      assert fs[..i + 1][..i] == fs[..i];
      var key := FieldKey(field.id);
      if key.None? {
        DecodeFieldsStops(k, raw, fs, defaults, i + 1);
        return Some(Panic("index out of range splitting " + field.id));
      }
      var (group, name) := key.value;
      if Stored(raw, (group, name)) {
        if field.id !in fields {
          DecodeFieldsStops(k, raw, fs, defaults, i + 1);
          return Some(Panic("nil field " + field.id));
        }
        fields := fields[field.id := k.load(fields[field.id], raw[group][name])];
      }
      i := i + 1;
    }
    assert fs[..i] == fs;
    node.fields := fields;
    return None;
  }

  /** The answer loop of EmitSignal: the result slice is made `len(ret)` long and filled with
      the decoded replies, in order, until one fails to decode. */
  method DecodeReplies<P>(decode: Bytes -> Result<P>, ret: seq<Bytes>, zero: P) returns (out: seq<P>, err: Option<Error>)
    ensures out == Collected(decode, ret, zero)
    ensures err.None? <==> FirstFailure(decode, ret) == |ret|
    ensures err.Some? ==>
      err == Some(Wrapped("service: Could not decode signal return value", decode(ret[FirstFailure(decode, ret)]).error))
  {
    ghost var n := FirstFailure(decode, ret);
    out := seq(|ret|, _ => zero);
    var i := 0;
    while i < |ret|
      invariant 0 <= i <= |ret| && i <= n
      invariant |out| == |ret|
      invariant forall j :: 0 <= j < |ret| ==> out[j] == if j < i then decode(ret[j]).value else zero
    {
      var decoded := decode(ret[i]);
      if decoded.Err? {
        assert out == Collected(decode, ret, zero);
        return out, Some(Wrapped("service: Could not decode signal return value", decoded.error));
      }
      out := out[i := decoded.value];
      i := i + 1;
    }
    assert out == Collected(decode, ret, zero);
    return out, None;
  }

  class MonstiClient<V, P> {
    /** The client's id at the broker (`Client.Id`). */
    const id: string
    /** The sticky error (`Client.Error`), set when connecting failed. */
    const error: Option<Error>
    /** `SignalHandlers`: one handler per signal name. */
    var handlers: map<string, Handler<P>>
    /** What the broker answers. */
    const broker: Broker<P>
    /** Everything this client did so far, in order. */
    var trace: seq<Event<P>>
    /** The field implementations and the encodings. */
    const kinds: FieldKinds<V>
    const json: Json
    const gob: Gob<P>

    constructor (id: string, error: Option<Error>, broker: Broker<P>, kinds: FieldKinds<V>, json: Json, gob: Gob<P>)
      ensures this.id == id && this.error == error && this.broker == broker
      ensures this.kinds == kinds && this.json == json && this.gob == gob
      ensures handlers == map[] && trace == []
    {
      this.id := id;
      this.error := error;
      this.broker := broker;
      this.kinds := kinds;
      this.json := json;
      this.gob := gob;
      handlers := map[];
      trace := [];
    }

    /** `s.RPCClient.Call`: one remote call, answered by the broker and logged. */
    method RpcCall(c: Call) returns (r: Result<Reply>)
      modifies this`trace
      ensures r == broker(old(trace), c)
      ensures trace == old(trace) + [Rpc(c)]
    {
      r := broker(trace, c);
      trace := trace + [Rpc(c)];
    }

    /** Tells the broker that the given module finished its initialisation. */
    method ModuleInitDone(moduleName: string) returns (err: Option<Error>)
      modifies this`trace
      ensures error.Some? ==> err == error && trace == old(trace)
      ensures error.None? ==>
        && trace == old(trace) + [Rpc(Call.ModuleInitDone(moduleName))]
        && err == WrapErr("service: ModuleInitDone error", broker(old(trace), Call.ModuleInitDone(moduleName)))
    {
      if error.Some? {
        return error;
      }
      var r := RpcCall(Call.ModuleInitDone(moduleName));
      return WrapErr("service: ModuleInitDone error", r);
    }

    /** Writes the node: stamps its change time with `now` (Go's `time.Now()` in `WriteNode`), encodes it
        and stores the encoding as `node.json`. A failed client does nothing and reports nothing. */
    method WriteNode(site: string, path: string, node: Node<V>, now: int) returns (err: Option<Error>)
      modifies this`trace, node
      ensures error.Some? ==> err.None? && trace == old(trace) && unchanged(node)
      ensures error.None? ==> node.State() == old(node.State()).(changed := now)
      ensures error.None? ==>
        match Encode(kinds, json, old(node.State()).(changed := now), true)
        case Err(e) => err == Some(Wrapped("service: Could not convert node", e)) && trace == old(trace)
        case Ok(data) =>
          var c := Call.WriteNodeData(site, path, "node.json", data);
          && trace == old(trace) + [Rpc(c)]
          && err == (match WrapErr("service: WriteNodeData error", broker(old(trace), c))
                     case None => None
                     case Some(e) => Some(Wrapped("service: Could not write node", e)))
    {
      if error.Some? {
        return None;
      }
      node.changed := now;
      var data := NodeToData(kinds, json, node, true);
      if data.Err? {
        return Some(Wrapped("service: Could not convert node", data.error));
      }
      var e := WriteNodeData(site, path, "node.json", data.value);
      if e.Some? {
        return Some(Wrapped("service: Could not write node", e.value));
      }
      return None;
    }

    /** `dataToNode(data, s.GetNodeType, s, site)`: empty data is "no node"; otherwise the
        envelope is unmarshalled, its type resolved through GetNodeType, the fields initialised
        and every declared field that has a raw entry loaded from it. */
    method DataToNode(data: Bytes) returns (r: Result<Node?<V>>)
      modifies this`trace
      ensures var d := DecodeAt(kinds, json, broker, error, old(trace), data);
        trace == old(trace) + d.1 && Realizes(r, d.0)
      ensures r.Ok? && r.value != null ==> fresh(r.value)
    {
      if |data| == 0 {
        return Ok(null);
      }
      var envelope := json.unmarshal(data);
      if envelope.Err? {
        return Err(Wrapped("service: Could not unmarshal node", envelope.error));
      }
      var env := envelope.value;
      var t := GetNodeType(env.nodeType);
      if t.Err? {
        return Err(Wrapped("Could not get node type", t.error));
      }
      var ret := new Node(NodeState(env.path, t.value, env.localFields, env.changed, map[]));
      var nodeFields := ret.nodeType.fields + ret.localFields;
      var defaults := kinds.init(nodeFields);
      if defaults.Err? {
        return Err(Wrapped("Could not init node fields", defaults.error));
      }
      var err := LoadFields(kinds, ret, env.fields, nodeFields, defaults.value);
      if err.Some? {
        return Err(err.value);
      }
      return Ok(ret);
    }

    /** Reads the node at `path`; a node that does not exist gives no node and no error,
        and so does a failed client. */
    method GetNode(site: string, path: string) returns (r: Result<Node?<V>>)
      modifies this`trace
      ensures error.Some? ==> r == Ok(null) && trace == old(trace)
      ensures error.None? ==>
        var c := Call.GetNode(site, path);
        var t1 := old(trace) + [Rpc(c)];
        match AsBytes(broker(old(trace), c))
        case Err(e) => r == Err(Wrapped("service: GetNode error", e)) && trace == t1
        case Ok(data) =>
          var d := DecodeAt(kinds, json, broker, error, t1, data);
          trace == t1 + d.1 && Realizes(r, ConvertError(d.0))
      ensures r.Ok? && r.value != null ==> fresh(r.value)
    {
      if error.Some? {
        return Ok(null);
      }
      var reply := RpcCall(Call.GetNode(site, path));
      var data := AsBytes(reply);
      if data.Err? {
        return Err(Wrapped("service: GetNode error", data.error));
      }
      var node := DataToNode(data.value);
      if node.Err? {
        return Err(Wrapped("service: Could not convert node", node.error));
      }
      return node;
    }

    /** Reads the children of the node at `path`: every entry of the reply is decoded, in
        order, and the first failure aborts. */
    method GetChildren(site: string, path: string) returns (r: Result<seq<Node?<V>>>)
      modifies this`trace
      ensures error.Some? ==> r == Err(error.value) && trace == old(trace)
      ensures error.None? ==>
        var c := Call.GetChildren(site, path);
        var t1 := old(trace) + [Rpc(c)];
        match AsBytesList(broker(old(trace), c))
        case Err(e) => r == Err(Wrapped("service: GetChildren error", e)) && trace == t1
        case Ok(entries) =>
          var d := DecodeChildren(kinds, json, broker, error, t1, entries);
          trace == t1 + d.1 && AllRealize(r, d.0)
    {
      if error.Some? {
        return Err(error.value);
      }
      var reply := RpcCall(Call.GetChildren(site, path));
      var entries := AsBytesList(reply);
      if entries.Err? {
        return Err(Wrapped("service: GetChildren error", entries.error));
      }
      r := ConvertAll(entries.value);
    }

    /** The loop of GetChildren: converts every entry in order with `dataToNode` and stops
        at the first failure. */
    method ConvertAll(entries: seq<Bytes>) returns (r: Result<seq<Node?<V>>>)
      requires error.None?
      modifies this`trace
      ensures var d := DecodeChildren(kinds, json, broker, error, old(trace), entries);
        trace == old(trace) + d.1 && AllRealize(r, d.0)
    {
      ghost var t1 := trace;
      ghost var states: seq<Option<NodeState<V>>> := [];
      ghost var events: seq<Event<P>> := [];
      var nodes: seq<Node?<V>> := [];
      var i := 0;
      while i < |entries|
        invariant 0 <= i <= |entries|
        invariant DecodeChildren(kinds, json, broker, error, t1, entries[..i]) == (Ok(states), events)
        invariant trace == t1 + events
        invariant |nodes| == i && AllMatch(nodes, states)
      {
        var node, s, ev := ConvertNext(entries, i, t1, states, events);
        if node.Err? {
          return Err(Wrapped("service: Could not convert node", node.error));
        }
        nodes := nodes + [node.value];
        states := states + [s];
        events := events + ev;
        i := i + 1;
      }
      assert entries[..i] == entries;
      return Ok(nodes);
    }

    /** Entry `i` of the GetChildren loop, after the entries before it decoded to `states`
        with the calls `events`: a failure ends the whole loop, a node extends it. */
    method ConvertNext(entries: seq<Bytes>, i: nat, ghost t1: seq<Event<P>>,
                       ghost states: seq<Option<NodeState<V>>>, ghost events: seq<Event<P>>)
      returns (node: Result<Node?<V>>, ghost s: Option<NodeState<V>>, ghost ev: seq<Event<P>>)
      requires error.None? && i < |entries| && trace == t1 + events
      requires DecodeChildren(kinds, json, broker, error, t1, entries[..i]) == (Ok(states), events)
      modifies this`trace
      ensures trace == t1 + (events + ev)
      ensures node.Err? ==>
        DecodeChildren(kinds, json, broker, error, t1, entries) == (Err(Wrapped("service: Could not convert node", node.error)), events + ev)
      ensures node.Ok? ==>
        DecodeChildren(kinds, json, broker, error, t1, entries[..i + 1]) == (Ok(states + [s]), events + ev)
        && Matches(node.value, s)
    {
      node := DataToNode(entries[i]);
      ghost var step := DecodeAt(kinds, json, broker, error, t1 + events, entries[i]);
      DecodeChildrenStep(kinds, json, broker, error, t1, entries, i, states, events);
      ev := step.1;
      s := if step.0.Ok? then step.0.value else None;
    }

    /** Reads a per-node data file; a missing file gives an empty reply. */
    method GetNodeData(site: string, path: string, file: string) returns (r: Result<Bytes>)
      modifies this`trace
      ensures error.Some? ==> r == Err(error.value) && trace == old(trace)
      ensures error.None? ==>
        var c := Call.GetNodeData(site, path, file);
        && trace == old(trace) + [Rpc(c)]
        && r == match AsBytes(broker(old(trace), c))
                case Err(e) => Err(Wrapped("service: GetNodeData error", e))
                case Ok(b) => Ok(b)
    {
      if error.Some? {
        return Err(error.value);
      }
      var reply := RpcCall(Call.GetNodeData(site, path, file));
      var data := AsBytes(reply);
      if data.Err? {
        return Err(Wrapped("service: GetNodeData error", data.error));
      }
      return Ok(data.value);
    }

    /** Writes a per-node data file. A failed client does nothing and reports nothing. */
    method WriteNodeData(site: string, path: string, file: string, content: Bytes) returns (err: Option<Error>)
      modifies this`trace
      ensures error.Some? ==> err.None? && trace == old(trace)
      ensures error.None? ==>
        var c := Call.WriteNodeData(site, path, file, content);
        trace == old(trace) + [Rpc(c)] && err == WrapErr("service: WriteNodeData error", broker(old(trace), c))
    {
      if error.Some? {
        return None;
      }
      var r := RpcCall(Call.WriteNodeData(site, path, file, content));
      return WrapErr("service: WriteNodeData error", r);
    }

    /** Recursively removes a node. A failed client does nothing and reports nothing. */
    method RemoveNode(site: string, node: string) returns (err: Option<Error>)
      modifies this`trace
      ensures error.Some? ==> err.None? && trace == old(trace)
      ensures error.None? ==>
        var c := Call.RemoveNode(site, node);
        trace == old(trace) + [Rpc(c)] && err == WrapErr("service: RemoveNode error", broker(old(trace), c))
    {
      if error.Some? {
        return None;
      }
      var r := RpcCall(Call.RemoveNode(site, node));
      return WrapErr("service: RemoveNode error", r);
    }

    /** Renames (moves) a node. A failed client does nothing and reports nothing. */
    method RenameNode(site: string, source: string, target: string) returns (err: Option<Error>)
      modifies this`trace
      ensures error.Some? ==> err.None? && trace == old(trace)
      ensures error.None? ==>
        var c := Call.RenameNode(site, source, target);
        trace == old(trace) + [Rpc(c)] && err == WrapErr("service: RenameNode error", broker(old(trace), c))
    {
      if error.Some? {
        return None;
      }
      var r := RpcCall(Call.RenameNode(site, source, target));
      return WrapErr("service: RenameNode error", r);
    }

    /** Reads the named site configuration into `out` (returned as `out'`), through getConfig. */
    method GetSiteConfig<T>(site: string, name: string, out: T, unmarshal: Bytes -> Result<seq<(string, Option<T>)>>)
      returns (out': T, err: Option<Error>)
      modifies this`trace
      ensures error.Some? ==> out' == out && err == error && trace == old(trace)
      ensures error.None? ==>
        var c := Call.GetSiteConfig(site, name);
        && trace == old(trace) + [Rpc(c)]
        && (out', err) == match AsBytes(broker(old(trace), c))
                          case Err(e) => (out, Some(Wrapped("service: GetSiteConfig error", e)))
                          case Ok(reply) => GetConfig(reply, out, unmarshal)
    {
      if error.Some? {
        return out, error;
      }
      var r := RpcCall(Call.GetSiteConfig(site, name));
      var reply := AsBytes(r);
      if reply.Err? {
        return out, Some(Wrapped("service: GetSiteConfig error", reply.error));
      }
      out', err := GetConfig(reply.value, out, unmarshal).0, GetConfig(reply.value, out, unmarshal).1;
    }

    /** Registers a node type with the broker. */
    method RegisterNodeType(nodeType: NodeType) returns (err: Option<Error>)
      modifies this`trace
      ensures error.Some? ==> err == error && trace == old(trace)
      ensures error.None? ==>
        var c := Call.RegisterNodeType(nodeType);
        trace == old(trace) + [Rpc(c)] && err == WrapErr("service: Error calling RegisterNodeType", broker(old(trace), c))
    {
      if error.Some? {
        return error;
      }
      var r := RpcCall(Call.RegisterNodeType(nodeType));
      return WrapErr("service: Error calling RegisterNodeType", r);
    }

    /** Requests the node type with the given id; this is the resolver `dataToNode` uses. */
    method GetNodeType(typeId: string) returns (r: Result<NodeType>)
      modifies this`trace
      ensures error.Some? ==> r == Err(error.value) && trace == old(trace)
      ensures error.None? ==> trace == old(trace) + [Rpc(Call.GetNodeType(typeId))]
      ensures r == ResolverAt(broker, error, old(trace))(typeId)
    {
      if error.Some? {
        return Err(error.value);
      }
      var reply := RpcCall(Call.GetNodeType(typeId));
      var nodeType := AsNodeType(reply);
      if nodeType.Err? {
        return Err(Wrapped("service: Error calling GetNodeType", nodeType.error));
      }
      return Ok(nodeType.value);
    }

    /** The node types that may be added below `typeId` on `site`. */
    method GetAddableNodeTypes(site: string, typeId: string) returns (types: seq<string>, err: Option<Error>)
      modifies this`trace
      ensures error.Some? ==> types == [] && err == error && trace == old(trace)
      ensures error.None? ==>
        var c := Call.GetAddableNodeTypes(site, typeId);
        && trace == old(trace) + [Rpc(c)]
        && (types, err) == match AsNames(broker(old(trace), c))
                           case Err(e) => ([], Some(Wrapped("service: Error calling GetAddableNodeTypes", e)))
                           case Ok(names) => (names, None)
    {
      if error.Some? {
        return [], error;
      }
      var r := RpcCall(Call.GetAddableNodeTypes(site, typeId));
      var names := AsNames(r);
      if names.Err? {
        return [], Some(Wrapped("service: Error calling GetAddableNodeTypes", names.error));
      }
      return names.value, None;
    }

    /** The request with the given id, or no request when the broker's reply carries another id. */
    method GetRequest(requestId: nat) returns (r: Result<Option<Request>>)
      modifies this`trace
      ensures error.Some? ==> r == Err(error.value) && trace == old(trace)
      ensures error.None? ==>
        var c := Call.GetRequest(requestId);
        && trace == old(trace) + [Rpc(c)]
        && r == match AsRequest(broker(old(trace), c))
                case Err(e) => Err(Wrapped("service: Monsti.GetRequest error", e))
                case Ok(req) => Ok(RequestFromReply(requestId, req))
    {
      if error.Some? {
        return Err(error.value);
      }
      var reply := RpcCall(Call.GetRequest(requestId));
      var req := AsRequest(reply);
      if req.Err? {
        return Err(Wrapped("service: Monsti.GetRequest error", req.error));
      }
      if req.value.id != requestId {
        return Ok(None);
      }
      return Ok(Some(req.value));
    }

    /** The ids of all supported node types. */
    method GetNodeTypes() returns (r: Result<seq<string>>)
      modifies this`trace
      ensures error.Some? ==> r == Err(error.value) && trace == old(trace)
      ensures error.None? ==>
        && trace == old(trace) + [Rpc(Call.GetNodeTypes)]
        && r == match AsNames(broker(old(trace), Call.GetNodeTypes))
                case Err(e) => Err(Wrapped("service: RPC error for GetNodeTypes", e))
                case Ok(names) => Ok(names)
    {
      if error.Some? {
        return Err(error.value);
      }
      var reply := RpcCall(Call.GetNodeTypes);
      var names := AsNames(reply);
      if names.Err? {
        return Err(Wrapped("service: RPC error for GetNodeTypes", names.error));
      }
      return Ok(names.value);
    }

    /** Announces a service and the socket path it listens on. */
    method PublishService(service: string, path: string) returns (err: Option<Error>)
      modifies this`trace
      ensures error.Some? ==> err == error && trace == old(trace)
      ensures error.None? ==>
        var c := Call.PublishService(service, path);
        trace == old(trace) + [Rpc(c)] && err == WrapErr("service: Error calling PublishService", broker(old(trace), c))
    {
      if error.Some? {
        return error;
      }
      var r := RpcCall(Call.PublishService(service, path));
      return WrapErr("service: Error calling PublishService", r);
    }

    /** Hands an (opaque) mail message to the broker for delivery. */
    method SendMail(mail: Bytes) returns (err: Option<Error>)
      modifies this`trace
      ensures error.Some? ==> err == error && trace == old(trace)
      ensures error.None? ==>
        var c := Call.SendMail(mail);
        trace == old(trace) + [Rpc(c)] && err == WrapErr("service: Monsti.SendMail error", broker(old(trace), c))
    {
      if error.Some? {
        return error;
      }
      var r := RpcCall(Call.SendMail(mail));
      return WrapErr("service: Monsti.SendMail error", r);
    }

    /** Connects to the signal `name`; on success `handle` becomes its one local handler,
        replacing an earlier one. A failed connection leaves the handlers as they were. */
    method AddSignalHandler(name: string, handle: Handler<P>) returns (err: Option<Error>)
      modifies this`trace, this`handlers
      ensures error.Some? ==> err == error && trace == old(trace) && handlers == old(handlers)
      ensures error.None? ==> trace == old(trace) + [Rpc(Call.ConnectSignal(id, name))]
      ensures error.None? && broker(old(trace), Call.ConnectSignal(id, name)).Err? ==>
        && err == Some(Wrapped("service: Monsti.ConnectSignal error", broker(old(trace), Call.ConnectSignal(id, name)).error))
        && handlers == old(handlers)
      ensures error.None? && broker(old(trace), Call.ConnectSignal(id, name)).Ok? ==>
        err.None? && handlers == old(handlers)[name := handle]
    {
      if error.Some? {
        return error;
      }
      var r := RpcCall(Call.ConnectSignal(id, name));
      if r.Err? {
        return Some(Wrapped("service: Monsti.ConnectSignal error", r.error));
      }
      handlers := handlers[name := handle];
      return None;
    }

    /** Emits the signal `name` with `args` and collects one result per handler that answered.
        `retarg` is the caller's result slice, returned as `out`: it is replaced by `len(ret)`
        zero values once the broker has answered, which are then decoded one by one. */
    method EmitSignal(name: string, args: P, retarg: seq<P>, zero: P) returns (out: seq<P>, err: Option<Error>)
      modifies this`trace
      ensures error.Some? ==> out == retarg && err == error && trace == old(trace)
      ensures error.None? ==>
        match gob.encode(args)
        case Err(e) =>
          out == retarg && err == Some(Wrapped("service: Could not encode signal argumens", e)) && trace == old(trace)
        case Ok(encoded) =>
          var c := Call.EmitSignal(name, encoded);
          && trace == old(trace) + [Rpc(c)]
          && match AsBytesList(broker(old(trace), c))
             case Err(e) => out == retarg && err == Some(Wrapped("service: Monsti.EmitSignal error", e))
             case Ok(ret) =>
               var n := FirstFailure(gob.decode, ret);
               && out == Collected(gob.decode, ret, zero)
               && (n == |ret| ==> err.None?)
               && (n < |ret| ==> err == Some(Wrapped("service: Could not decode signal return value", gob.decode(ret[n]).error)))
    {
      if error.Some? {
        return retarg, error;
      }
      var encoded := gob.encode(args);
      if encoded.Err? {
        return retarg, Some(Wrapped("service: Could not encode signal argumens", encoded.error));
      }
      var reply := RpcCall(Call.EmitSignal(name, encoded.value));
      var ret := AsBytesList(reply);
      if ret.Err? {
        return retarg, Some(Wrapped("service: Monsti.EmitSignal error", ret.error));
      }
      out, err := DecodeReplies(gob.decode, ret.value, zero);
    }

    /** Waits for the next dispatch of a connected signal, runs its handler and reports the
        handler's result back. Must not run twice at once on one client (not modelled). */
    method WaitSignal() returns (err: Option<Error>)
      modifies this`trace
      ensures error.Some? ==> err == error && trace == old(trace)
      ensures error.None? ==>
        var outcome := WaitOutcome(broker, gob, id, handlers, old(trace));
        err == outcome.0 && trace == old(trace) + outcome.1
    {
      if error.Some? {
        return error;
      }
      var reply := RpcCall(Call.WaitSignal(id));
      var signal := AsSignal(reply);
      if signal.Err? {
        return Some(Wrapped("service: Monsti.WaitSignal error", signal.error));
      }
      var arg := gob.decode(signal.value.1);
      if arg.Err? {
        return Some(Wrapped("service: Could not decode signal argumens", arg.error));
      }
      var name := signal.value.0;
      if name !in handlers {
        return Some(Panic("call of nil signal handler " + name));
      }
      var handle := handlers[name];
      ghost var handled := [Rpc(Call.WaitSignal(id)), Handled(name, arg.value)];
      trace := trace + [Handled(name, arg.value)];
      assert trace == old(trace) + handled;
      var ret := handle(arg.value);
      if ret.Err? {
        return Some(Wrapped("service: Signal handler for " + name + " returned error", ret.error));
      }
      var encoded := gob.encode(ret.value);
      if encoded.Err? {
        return Some(Wrapped("service: Could not encode signal return value", encoded.error));
      }
      var finish := RpcCall(Call.FinishSignal(id, encoded.value));
      return WrapErr("service: Monsti.FinishSignal error", finish);
    }
  }
}
