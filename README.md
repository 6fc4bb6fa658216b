# Monsti client API and request routing, modelled in Dafny

Monsti is a CMS made of cooperating daemons that talk to a central broker over RPC. This project
models two parts of it.

**The broker client `MonstiClient` from `api/service/monsti.go`.**
- The client holds three things:
  - a sticky connection error;
  - the local signal handlers, one per signal name;
  - the RPC port.
- Every operation checks the sticky error before it makes any call.
- Nodes travel as JSON envelopes. In an envelope, the node's declared fields are stored under a
  two-level key `group -> name`, where the two parts come from splitting the field id at its first
  `.`.
- Signals run in three steps:
  - `AddSignalHandler` connects a signal and records its handler;
  - `EmitSignal` broadcasts a signal and collects one answer per handler;
  - `WaitSignal` serves one dispatch of a connected signal.

**URL routing from `serve.go`.**
- `splitAction` peels a trailing `/@@action` segment off a request path.
- `ServeHTTP` redirects a path without an action that does not end in `/` to its node path plus a
  trailing slash, which Go then re-parses as a URL reference against the request URL.
- `ServeHTTP` dispatches on the action.
- When a node worker answers with a replacement node, `RequestNode` adopts it but keeps the
  requested path.

The modules follow the program's structure:

| module | holds |
|---|---|
| `Base` (`base.dfy`) | `Option`, and `Result` over an `Error`. The `Error` is either a message, a message wrapping a cause (the model of `fmt.Errorf("context: %v", err)`), or a Go panic. |
| `GoStrings` (`gostrings.dfy`) | `strings.Split` and `strings.SplitN(_, _, 2)`, with the facts the codec and the router need: join-inverse, the last piece, splitting at the first separator. |
| `Codec` (`codec.dfy`) | The node records, meaning the encoding `nodeToData` and the decoding `dataToNode` as functions, and the round trip between them. It also holds the class `Node` and the in-place `NodeToData`, which blanks the node's path and restores it. |
| `Protocol` (`protocol.dfy`) | The broker's procedures (`Call`), its replies, the event log, and the request and user records. |
| `ClientSpec` (`clientspec.dfy`) | The multi-step operations as functions of the broker's answers: the GetChildren loop, signal collection, the WaitSignal sequence, `getConfig`, and the GetRequest sentinel. |
| `Service` (`service.dfy`) | The class `MonstiClient`. Each method is proved against the `ClientSpec` and `Codec` functions. |
| `Serve` (`serve.dfy`) | `splitAction`, the redirect rule, the handler switch, and the request context with the node replacement. |

Parameters stand in for everything the model cannot compute:
- **The broker.** It is a function from the client's event log and the call to the reply. The
  client appends every RPC it makes to its log, and also every handler invocation. So "which
  calls happen, in which order, on which error path" is a statement about one sequence.
- **JSON, gob and field values.** They are function values in records (`Codec.FieldKinds`,
  `Codec.Json`, `Protocol.Gob`). The round-trip lemma requires three laws, stated as predicates:
  - `Load(Dump(x)) = x`;
  - unmarshalling a marshalled envelope gives back the envelope, except that each raw field
    dump comes back as the encoder laid it out (compacted by `json.Marshal`, re-indented by
    `json.MarshalIndent`);
  - loading a relaid dump is loading the original, because `Load` reads through
    `json.Unmarshal`, which ignores whitespace.
- **`InitFields`.** It is not part of this model. Its result is the parameter `FieldKinds.init`.
- **`time.Now()` in `WriteNode`.** It is the parameter `now`.

## Model

| member | source | states |
|---|---|---|
| GoStrings.Split | serve.go:65-66 | `strings.Split` gives at least one piece, no piece contains the separator, and joining the pieces with the separator gives back the string |
| GoStrings.SplitN2 | api/service/monsti.go:83 | `SplitN(s, sep, 2)` gives one piece exactly when `sep` is absent, and then that piece is `s`; otherwise it gives `s = p0 + sep + p1` with `sep` absent from `p0` |
| Codec.FieldKey | api/service/monsti.go:156-157 | an id has a key exactly when it contains `.`; the key's group is free of `.`, and group `.` name is the id again |
| Codec.FieldKeyInjective | api/service/monsti.go:83-92 | two field ids with the same `(group, name)` key are the same id, so fields never overwrite each other in the envelope |
| Codec.EncodeFields | api/service/monsti.go:81-93 | the field loop of `nodeToData` succeeds exactly when every declared field has a value, the value dumps and the id contains `.` |
| Codec.EncodeLayout | api/service/monsti.go:81-93 | on success, for every declared field `g.n`, the envelope stores the field's `Dump` at `Fields[g][n]` |
| Codec.EncodeOnlyDeclared | api/service/monsti.go:81-93 | on success, every key stored in the envelope is the key of some declared field |
| Codec.DumpFields | api/service/monsti.go:81-93 | the field loop of `nodeToData` computes exactly `Codec.EncodeFields`: each declared field dumped under its `(group, name)` key, or the first panic or dump error |
| Codec.Encode | api/service/monsti.go:67-105 | a failing field loop is the result; when the loop and the marshalling succeed there is a document, and it is the marshalling of the envelope with an empty path, the type by id only and the fields of the loop; a marshal failure is the error "service: Could not marshal node" around the marshal error |
| Codec.EncodeIgnoresPath | api/service/monsti.go:66-73 | the encoding does not depend on the node's path |
| Codec.DecodeFields | api/service/monsti.go:155-164 | a successful field loop keeps exactly the field ids of the initialised defaults |
| Codec.DecodeFieldsStops | api/service/monsti.go:155-164 | a failure on a prefix of the declared fields is the result of the whole loop |
| Codec.DecodeMissingKeepsDefault | api/service/monsti.go:155-160 | a declared field with no raw entry keeps its initialised default |
| Codec.DecodeIgnoresUndeclared | api/service/monsti.go:155-164 | a raw entry whose key belongs to no declared field does not change the result |
| Codec.Relayout | api/service/monsti.go:95-99 | the encoder's relaid field dumps sit under exactly the keys of the original dumps |
| Codec.RelaidDumpLoadsBack | api/service/monsti.go:95-99 | given that loading inverts dumping and ignores layout, a dump that the encoder relaid still loads back as the field's value |
| Codec.DecodeEncodedFields | api/service/monsti.go:154-164 | when every declared field has an initialised slot and a raw entry that loads back as its value, the field loop gives back each declared value, and every other slot keeps its default |
| Codec.Decode | api/service/monsti.go:132-166 | "no node, no error" exactly for empty data; an unreadable envelope is "service: Could not unmarshal node", a resolver failure "Could not get node type" and an initialiser failure "Could not init node fields", each around its cause; otherwise the result is a node exactly when the field loop succeeds, with the loop's values, the envelope's path, local fields and change time, and the type the resolver returned |
| Codec.RoundTrip | api/service/monsti.go:67-166 | for plain and indented documents alike, given the three laws and a resolver that returns the node's type, decoding the encoding gives the node with an empty path, the same type, local fields and change time, and the same value for every declared field |
| Codec.NodeToData | api/service/monsti.go:67-105 | the in-place encoder returns the encoding of the node, and the node (its path included) is unchanged afterwards on every return path |
| ClientSpec.ResolverAt | api/service/monsti.go:343-354 | `s.GetNodeType` as the resolver: a failed client gives its error for every id; otherwise the broker's node type, or its error wrapped as "service: Error calling GetNodeType" |
| ClientSpec.ResolverEvents | api/service/monsti.go:135-145 | decoding makes at most one call, the GetNodeType of the envelope's type, and it makes it exactly when the data is a readable envelope and the client is not failed |
| ClientSpec.DecodeAt | api/service/monsti.go:132-166 | empty data is no node, no error and no call; a decoded node cost exactly one call; a failed client makes no call and cannot decode a readable envelope |
| ClientSpec.DecodeChildren | api/service/monsti.go:199-208 | a successful children loop yields one entry per reply entry |
| ClientSpec.DecodeChildrenStep | api/service/monsti.go:199-208 | one more entry of the children loop: a failing entry ends the whole loop with "service: Could not convert node" around its error, a good one appends its node and its calls |
| ClientSpec.DecodeChildrenStops | api/service/monsti.go:199-208 | after the first entry that fails to convert, no later entry is decoded and no further call is made |
| ClientSpec.DecodeChildrenEach | api/service/monsti.go:199-208 | child `i` is the decoding of entry `i`, resolved against the broker's state after the entries before it |
| ClientSpec.FirstFailure | api/service/monsti.go:624-632 | the index returned is the first reply that fails to decode, or `len(ret)` when none does |
| ClientSpec.Collected | api/service/monsti.go:622-633 | the result slice has `len(ret)` elements: the decoded replies before the first failure, zero values after it |
| ClientSpec.CollectedAll | api/service/monsti.go:622-633 | when every reply decodes, element `i` of the result is the decoding of reply `i` |
| ClientSpec.WaitOutcome | api/service/monsti.go:650-681 | a WaitSignal without error has made three steps, the last a FinishSignal call with this client's id |
| ClientSpec.WaitSignalOrder | api/service/monsti.go:642-681 | WaitSignal's log is the WaitSignal call, then one handler call only for a decodable dispatch with a registered handler, then one FinishSignal with this client's id only for a successful and encodable handler result; any shorter log ends in an error |
| ClientSpec.WaitSignalProgress | api/service/monsti.go:650-681 | the converse of the order: a decodable dispatch with a registered handler calls that handler, and a successful, encodable result is sent with FinishSignal, whose outcome is WaitSignal's error |
| ClientSpec.WaitSignalHandlerFails | api/service/monsti.go:661-665 | a failing handler makes WaitSignal fail with that handler's error, and no FinishSignal is sent |
| ClientSpec.GetConfig | api/service/monsti.go:277-293 | an empty reply leaves `out` as it is, with no error; a non-null first value of a decoded reply is stored in `out`, without an error, and a null one leaves `out` alone; an undecodable reply is "service: Could not decode configuration" around the decoder's error; an empty mapping panics; `out` changes in no other case |
| ClientSpec.RequestFromReply | api/service/monsti.go:446-449 | a request is found exactly when the reply carries the id asked for, and then it is the reply |
| Service.LoadFields | api/service/monsti.go:155-164 | the field loop leaves in the node's map exactly what `Codec.DecodeFields` computes, or returns that function's error and leaves the map as it was |
| Service.DecodeReplies | api/service/monsti.go:622-633 | the loop over the replies yields `ClientSpec.Collected`, and an error exactly when some reply does not decode, namely the first one's error wrapped as "service: Could not decode signal return value" |
| Service.MonstiClient.RpcCall | api/service/monsti.go:58 | one remote call: the reply is the broker's answer to the log so far, and the call is appended to the log |
| Service.MonstiClient.ModuleInitDone | api/service/monsti.go:54-63 | a failed client returns its error and calls nothing; otherwise one ModuleInitDone call, with its error wrapped |
| Service.MonstiClient.WriteNode | api/service/monsti.go:108-123 | a failed client returns nil, calls nothing and leaves the node (and `Changed`) as it is; otherwise it stamps `Changed`, and either reports the conversion error or writes the encoding as `node.json` with exactly one call |
| Service.MonstiClient.DataToNode | api/service/monsti.go:132-166 | the node returned is `Codec.Decode` of the data with `GetNodeType` as the resolver, and the only call made is that one GetNodeType |
| Service.MonstiClient.GetNode | api/service/monsti.go:171-186 | a failed client gives no node and no error and calls nothing; otherwise one GetNode call followed by the decoding of its reply, with the conversion error wrapped |
| Service.MonstiClient.GetChildren | api/service/monsti.go:189-209 | a failed client returns its error; otherwise the children are `ClientSpec.DecodeChildren` of the reply, node by node, with the same calls |
| Service.MonstiClient.ConvertAll | api/service/monsti.go:199-208 | the conversion loop returns the nodes of `ClientSpec.DecodeChildren`, node by node, or its first error, and logs exactly its calls |
| Service.MonstiClient.ConvertNext | api/service/monsti.go:202-206 | one iteration: the entry is converted by `dataToNode`; a failure is the failure of the whole loop, a node extends the children decoded so far |
| Service.MonstiClient.GetNodeData | api/service/monsti.go:214-228 | a failed client returns its error; otherwise one GetNodeData call, whose reply (possibly empty) is returned |
| Service.MonstiClient.WriteNodeData | api/service/monsti.go:231-245 | a failed client returns nil and calls nothing; otherwise one WriteNodeData call, with its error wrapped |
| Service.MonstiClient.RemoveNode | api/service/monsti.go:248-259 | a failed client returns nil and calls nothing; otherwise one RemoveNode call, with its error wrapped |
| Service.MonstiClient.RenameNode | api/service/monsti.go:264-275 | a failed client returns nil and calls nothing; otherwise one RenameNode call, with its error wrapped |
| Service.MonstiClient.GetSiteConfig | api/service/monsti.go:297-308 | a failed client returns its error and leaves `out` alone; otherwise one GetSiteConfig call whose reply is read by `getConfig` |
| Service.MonstiClient.RegisterNodeType | api/service/monsti.go:331-340 | a failed client returns its error; otherwise one RegisterNodeType call, with its error wrapped |
| Service.MonstiClient.GetNodeType | api/service/monsti.go:343-354 | the result is the resolver `dataToNode` uses; a failed client returns its error and calls nothing |
| Service.MonstiClient.GetAddableNodeTypes | api/service/monsti.go:358-369 | a failed client returns its error; otherwise one call, whose names are returned, or the wrapped error |
| Service.MonstiClient.GetRequest | api/service/monsti.go:438-450 | a failed client returns its error; otherwise one GetRequest call, and a reply with another id means "no such request" |
| Service.MonstiClient.GetNodeTypes | api/service/monsti.go:491-501 | a failed client returns its error; otherwise one GetNodeTypes call, whose names are returned, or the wrapped error |
| Service.MonstiClient.PublishService | api/service/monsti.go:509-520 | a failed client returns its error; otherwise one PublishService call, with its error wrapped |
| Service.MonstiClient.SendMail | api/service/monsti.go:560-569 | a failed client returns its error; otherwise one SendMail call, with its error wrapped |
| Service.MonstiClient.AddSignalHandler | api/service/monsti.go:577-591 | a failed client changes nothing; otherwise one ConnectSignal call. On success the handler is stored under its name, replacing an earlier one, and all other entries stay; on failure the map is unchanged |
| Service.MonstiClient.EmitSignal | api/service/monsti.go:597-635 | a failed client or an encoding error leaves `retarg` and makes no call; otherwise exactly one EmitSignal call with the name and the encoded arguments, after which the result is `ClientSpec.Collected` of the replies, with an error exactly when some reply does not decode |
| Service.MonstiClient.WaitSignal | api/service/monsti.go:642-682 | a failed client returns its error and calls nothing; otherwise the error and the log are those of `ClientSpec.WaitOutcome` for the registered handlers |
| GoStrings.LastIndex | serve.go:65-66 | the position found holds the character, and no later position does; -1 means the character is absent |
| GoStrings.LastPieceIsSuffix | serve.go:65-66 | the last piece of `strings.Split` is what follows the last separator, or the whole string when there is none |
| Serve.LastSegmentIsLastToken | serve.go:65-66 | the segment `splitAction` inspects, the last token of the split at `/`, is what follows the last `/`, and contains no `/` |
| Serve.ActionSegment | serve.go:67-74 | a non-empty action's segment `@@action` follows the last `/`, which sits exactly `len(action)+3` characters from the end |
| Serve.SplitAction | serve.go:64-79 | the action contains no `/`; it is non-empty exactly when the last segment is longer than two characters and starts with `@@`, and then it is that segment without `@@`; without an action the node path is the path; with one, the path ends in `/@@` + action and the node path is what precedes it, or `/` |
| Serve.SplitActionOfSuffix | serve.go:64-79 | splitting `p + "/@@" + a` gives back the node path `p` (or `/` for an empty `p`) and the action `a` |
| Serve.NoActionAfterSlash | serve.go:65-70 | a path that ends in `/` names no action and is its own node path |
| Serve.NoActionForBareMarker | serve.go:65-70 | a last segment of exactly `@@` names no action |
| Serve.Redirect | serve.go:100-110 | a redirect happens exactly when the path does not end in `/` and names no action, and its target is the path plus `/` |
| Serve.RedirectTargetIsServed | serve.go:100-110 | the redirect target string, read as the next request's path, names no action, is its own node path, and is not redirected again |
| Serve.HandlerFor | serve.go:134-145 | `login`, `logout`, `add` and `remove` each go to their own handler, exactly, and every other action goes to `RequestNode` |
| Serve.ReqContext.Route | serve.go:100-110 | the context records the action `splitAction` found, and the decision is `Serve.Redirect` |
| Serve.ReqContext.ReplaceNode | serve.go:213-217 | a replacement node becomes the context node with the old node's path and its own type and title; without one the node stays; the replaced node object is not touched |
| Serve.ReqContext.Deliver | serve.go:210-226 | an answer with neither body nor redirect is a panic and changes nothing; otherwise the node is replaced as above, and the reply is the worker's redirect or the page, in the edit view for the edit action |

## Left out

- Connecting: `NewMonstiConnection`, `Connect` and the RPC transport (`net/rpc` over a socket) are left out. The sticky error is a constructor argument, and the broker is an abstract function of the call log.
- Byte-level JSON and gob formats, `gob.RegisterName` and the `reflect` calls are left out. Encoders and decoders are abstract functions. `EmitSignal` collects into a typed sequence whose zero value is a parameter. `getConfig` reads a typed list of `(name, value)` entries.
- `InitFields`, the field implementations, `SendMail`'s mail format and the `mimemail` package are not part of this model.
- Service.MonstiClient.DataToNode: the `site` argument of `InitFields` is not passed, because field initialisation is a parameter of the model.
- Codec.RoundTrip: the model treats every dump as a present raw entry. JSON decodes a dump of `null` into a nil `*json.RawMessage`, which `dataToNode` skips, so in Go such a field keeps its default. The model does not capture that case.
- Codec.Relayout: how `json.Marshal` compacts and `json.MarshalIndent` re-indents an embedded raw dump is the abstract function `Json.relayout`. That loading through `json.Unmarshal` does not see this whitespace is the assumed law `Codec.LoadIgnoresLayout`.
- Service.MonstiClient.DataToNode: `InitFields(m, site)` is handed the client and could make calls through it. The model's `FieldKinds.init` is a pure function of the field list. So the statement that the only call is the one GetNodeType holds for the model, not for every field implementation. `GetNode` and `GetChildren` inherit this.
- ClientSpec.WaitSignalOrder: a signal handler is a pure function `P -> Result<P>`. In Go it is any function, which could call back into the client or replace `SignalHandlers`. "Nothing else happens" is stated for such pure handlers only.
- Service.MonstiClient.GetNode: Go panics are `Error.Panic` results, and callers wrap them like any other error, e.g. `Wrapped("service: Could not convert node", Panic(..))`. In Go a panic unwinds through every caller unwrapped. The model keeps the panic as the innermost cause, and the `defer` in `nodeToData` restores the path on that path as well.
- Service.MonstiClient.GetAddableNodeTypes: on an RPC error the model returns an empty list. In Go the named result holds whatever the RPC layer left in it.
- Error texts: each error is its context string around its cause. Go's `%q` and `%v` renderings are not reproduced. The `GetNodeData` error at `api/service/monsti.go:225` has no `%v` verb, so Go renders the cause as an extra argument. The model wraps it like the others.
- Time: `time.Now().UTC()` in `WriteNode` becomes the parameter `now`, an integer timestamp.
- Concurrency: the rule that `WaitSignal` must not run twice at once on one client is not modelled.
- `ServeHTTP`/`RequestNode` plumbing is left out:
  - the session pool and session cookies;
  - site lookup by host;
  - `GetNode` for the request;
  - `checkPermission`, logging and panic recovery;
  - the multipart file loop;
  - template rendering and gettext.

  The redirect target is modelled as the node path plus `/`. `url.Parse` and `ResolveReference`, which drop the query, are left out.
- Serve.RedirectTargetIsServed: treats the target string as the path of the next request. Go re-parses that
  string with `url.Parse` and resolves it against the request URL (serve.go:103-108), so a decoded path
  containing `?` or `#` gives a different target, and one with a stray `%` makes `ServeHTTP` panic with
  "Could not parse request URL:". URL parsing is not part of this model.
- The commented-out operations of `api/service/monsti.go` (`GetConfig`, `Request`, `FindDataService`, the request-file helpers) are not modelled.

### Behaviours of the code worth noting

- A failing signal handler: `WaitSignal` returns the handler's error before `FinishSignal`, so the emitter gets no answer from this client.
- A signal with no registered handler: `WaitSignal` calls the nil function in `SignalHandlers`, which panics (`Error.Panic` in the model).
- A field whose `Load` fails: `dataToNode` ignores the error `Load` returns (`api/service/monsti.go:162`), so `load` is total in the model.
- Go panics are modelled as `Error.Panic` results, not as preconditions:
  - a nil field in the node's `Fields`;
  - a field id without `.`;
  - the first key of an empty configuration map.

  The exceptions are the slice in `splitAction` and the index in the redirect test, which become the preconditions `Serve.Splittable` and a non-empty path.
