/** The remote procedures the Monsti broker offers to a MonstiClient, their replies,
    and the log of what a client does. */
module Protocol {
  import opened Base
  import opened Codec

  /** `RequestMethod`. */
  datatype RequestMethod = GetRequest | PostRequest

  /** `Action`, in Go's declaration order. */
  datatype Action =
    | ViewAction | EditAction | LoginAction | LogoutAction
    | AddAction | RemoveAction | RequestPasswordTokenAction | ChangePasswordAction

  /** A registered user of the site; `passwordChanged` is a timestamp. */
  datatype User = User(login: string, name: string, email: string, password: string, passwordChanged: int)

  /** A session of an authenticated (`user` present) or anonymous user. */
  datatype UserSession = UserSession(user: Option<User>, locale: string)

  /** A request to be processed by a nodes service. */
  datatype Request = Request(
    id: nat,
    nodePath: string,
    site: string,
    query: map<string, seq<string>>,
    requestMethod: RequestMethod,
    session: Option<UserSession>,
    action: Action,
    formData: map<string, seq<string>>)

  /** One remote call with its argument. */
  datatype Call =
    | ModuleInitDone(moduleName: string)
    | GetNode(site: string, path: string)
    | GetChildren(site: string, path: string)
    | GetNodeData(site: string, path: string, file: string)
    | WriteNodeData(site: string, path: string, file: string, content: Bytes)
    | RemoveNode(site: string, node: string)
    | RenameNode(site: string, source: string, target: string)
    | GetSiteConfig(site: string, name: string)
    | RegisterNodeType(nodeType: NodeType)
    | GetNodeType(typeId: string)
    | GetAddableNodeTypes(site: string, typeId: string)
    | GetRequest(requestId: nat)
    | GetNodeTypes
    | PublishService(service: string, path: string)
    | SendMail(mail: Bytes)
    | ConnectSignal(clientId: string, signal: string)
    | EmitSignal(signal: string, args: Bytes)
    | WaitSignal(clientId: string)
    | FinishSignal(clientId: string, ret: Bytes)

  /** A reply as the transport delivers it. */
  datatype Reply =
    | Ack
    | Data(bytes: Bytes)
    | DataList(items: seq<Bytes>)
    | TypeInfo(nodeType: NodeType)
    | Names(names: seq<string>)
    | RequestInfo(request: Request)
    | Signal(name: string, args: Bytes)

  /** What a client does that the outside world sees: a remote call, or a local signal
      handler invoked with a decoded argument. */
  datatype Event<P> = Rpc(call: Call) | Handled(signal: string, arg: P)

  /** The broker and the transport, as an oracle: the answer to a call, given everything
      the client did before it. */
  type Broker<!P> = (seq<Event<P>>, Call) -> Result<Reply>

  /** A local signal handler: `func(interface{}) (interface{}, error)`. */
  type Handler<!P> = P -> Result<P>

  /** The gob encoding of signal payloads (an `argWrap` around the value). */
  datatype Gob<!P> = Gob(encode: P -> Result<Bytes>, decode: Bytes -> Result<P>)

  // Decoding a reply into the shape the caller expects; any other shape is a decode error
  // reported by the transport.

  const Mismatch := Failure("gob: type mismatch")

  function AsBytes(r: Result<Reply>): Result<Bytes>
  {
    match r
    case Err(e) => Err(e)
    case Ok(Data(b)) => Ok(b)
    case Ok(_) => Err(Mismatch)
  }

  function AsBytesList(r: Result<Reply>): Result<seq<Bytes>>
  {
    match r
    case Err(e) => Err(e)
    case Ok(DataList(items)) => Ok(items)
    case Ok(_) => Err(Mismatch)
  }

  function AsNodeType(r: Result<Reply>): Result<NodeType>
  {
    match r
    case Err(e) => Err(e)
    case Ok(TypeInfo(t)) => Ok(t)
    case Ok(_) => Err(Mismatch)
  }

  function AsNames(r: Result<Reply>): Result<seq<string>>
  {
    match r
    case Err(e) => Err(e)
    case Ok(Names(names)) => Ok(names)
    case Ok(_) => Err(Mismatch)
  }

  function AsRequest(r: Result<Reply>): Result<Request>
  {
    match r
    case Err(e) => Err(e)
    case Ok(RequestInfo(req)) => Ok(req)
    case Ok(_) => Err(Mismatch)
  }

  function AsSignal(r: Result<Reply>): Result<(string, Bytes)>
  {
    match r
    case Err(e) => Err(e)
    case Ok(Signal(name, args)) => Ok((name, args))
    case Ok(_) => Err(Mismatch)
  }

  /** The error a call site returns for a reply: the transport's error wrapped in the
      call site's context, or none. */
  function WrapErr(context: string, r: Result<Reply>): Option<Error>
  {
    if r.Err? then Some(Wrapped(context, r.error)) else None
  }
}
