/** The request routing of serve.go: splitting an `@@action` off the URL path, the
    trailing-slash redirect of `ServeHTTP`, and the part of `RequestNode` that takes the
    worker's answer (a replacement node keeps the path it was requested under). */
module Serve {
  import opened Base
  import opened GoStrings

  /** The last segment of a URL path: what follows its last `/`, or all of it without one. */
  function LastSegment(path: string): string
  {
    path[LastIndex(path, '/') + 1..]
  }

  /** The last segment is the last token of `strings.Split(path, "/")`, the way `splitAction`
      computes it, and contains no `/`. */
  lemma LastSegmentIsLastToken(path: string)
    ensures var tokens := Split(path, '/'); LastSegment(path) == tokens[|tokens| - 1]
    ensures '/' !in LastSegment(path)
  {
    LastPieceIsSuffix(path, '/');
  }

  /** The action named by the last segment: what follows a leading `@@` of a segment longer
      than two characters, and empty otherwise. */
  function ActionOf(path: string): string
  {
    var last := LastSegment(path);
    if |last| > 2 && last[..2] == "@@" then last[2..] else []
  }

  /** What `splitAction` needs in order not to slice out of range: a non-empty action is
      preceded by at least one more character, the `/` before `@@`. */
  predicate Splittable(path: string)
  {
    |ActionOf(path)| > 0 ==> |ActionOf(path)| + 3 <= |path|
  }

  /** Where a non-empty action sits: its segment `@@action` follows the last `/`, which is
      exactly `len(action)+3` characters from the end. */
  lemma ActionSegment(path: string)
    requires Splittable(path) && |ActionOf(path)| > 0
    ensures var a := ActionOf(path); var n := |path| - (|a| + 3);
      && '/' !in a
      && LastSegment(path) == "@@" + a
      && 0 <= n
      && path == path[..n] + "/@@" + a
  {
    // The two helper lemmas are not needed for soundness; they keep this proof's cost stable across solver seeds.
    var a := ActionOf(path);
    var last := LastSegment(path);
    var l := LastIndex(path, '/');
    MarkedSegment(last);
    assert |last| == |path| - l - 1;
    ConsAt(path, l);
    assert [path[l]] + path[l + 1..] == "/@@" + a;
  }

  /** A segment that starts with `@@` is `@@` followed by the rest (a step of `ActionSegment`, kept for solver stability). */
  lemma MarkedSegment(last: string)
    requires |last| > 2 && last[..2] == "@@"
    ensures last == "@@" + last[2..]
  {
  }

  /** A string is its prefix before position `l`, the character at `l`, and the rest (a step of `ActionSegment`, kept for solver stability). */
  lemma ConsAt(s: string, l: int)
    requires 0 <= l < |s|
    ensures s == s[..l] + ([s[l]] + s[l + 1..])
  {
    assert s == s[..l] + s[l..];
  }

  datatype ActionSplit = ActionSplit(nodePath: string, action: string)

  /** `splitAction`: peels a trailing `/@@action` segment off the path. The node path is
      what precedes it, or `/` when nothing does; without an action the path is returned
      as it is. */
  function SplitAction(path: string): (r: ActionSplit)
    requires Splittable(path)
    ensures '/' !in r.action
    ensures r.action != [] <==> |LastSegment(path)| > 2 && LastSegment(path)[..2] == "@@"
    ensures r.action != [] ==> LastSegment(path) == "@@" + r.action
    ensures r.action == [] ==> r.nodePath == path
    ensures r.action != [] ==>
      var n := |path| - (|r.action| + 3);
      && 0 <= n
      && path == path[..n] + "/@@" + r.action
      && r.nodePath == (if n == 0 then "/" else path[..n])
    ensures path != [] ==> r.nodePath != []
  {
    var action := ActionOf(path);
    if |action| > 0 then
      ActionSegment(path);
      var nodePath := path[..|path| - (|action| + 3)];
      ActionSplit(if |nodePath| == 0 then "/" else nodePath, action)
    else
      ActionSplit(path, action)
  }

  /** Splitting inverts appending: `p + "/@@" + a` splits into the node path `p` (or `/` for
      an empty `p`) and the action `a`, for every action without `/`. */
  lemma SplitActionOfSuffix(p: string, a: string)
    requires |a| > 0 && '/' !in a
    ensures Splittable(p + "/@@" + a)
    ensures SplitAction(p + "/@@" + a) == ActionSplit(if p == [] then "/" else p, a)
  {
    var path := p + "/@@" + a;
    assert path == p + ['/'] + ("@@" + a);
    assert '/' !in "@@" + a;
    LastIndexAfter(p, '/', "@@" + a);
    assert ("@@" + a)[..2] == "@@" && ("@@" + a)[2..] == a;
    assert path[..|p|] == p;
  }

  /** A path that ends in `/` names no action. */
  lemma NoActionAfterSlash(p: string)
    ensures Splittable(p + "/")
    ensures SplitAction(p + "/") == ActionSplit(p + "/", [])
  {
  }

  /** A last segment of exactly `@@` names no action either. */
  lemma NoActionForBareMarker(p: string)
    ensures Splittable(p + "/@@")
    ensures SplitAction(p + "/@@") == ActionSplit(p + "/@@", [])
  {
    assert p + "/@@" == p + ['/'] + "@@";
    LastIndexAfter(p, '/', "@@");
  }

  /** The redirect decision of `ServeHTTP`: a request without an action whose path does not
      end in `/` is sent to the same path with a `/` appended; any other request is served. */
  function Redirect(path: string): (r: Option<string>)
    requires Splittable(path) && |path| > 0
    ensures r.Some? <==> path[|path| - 1] != '/' && !(|LastSegment(path)| > 2 && LastSegment(path)[..2] == "@@")
    ensures r.Some? ==> r.value == path + "/"
  {
    var split := SplitAction(path);
    if |split.action| == 0 && split.nodePath[|split.nodePath| - 1] != '/' then Some(split.nodePath + "/")
    else None
  }

  /** A redirect ends after one step: the target string, taken as the path of the next
      request, is served as a request without an action whose node path is the target itself.
      Go re-parses the string as a URL reference first; that parsing is not modelled. */
  lemma RedirectTargetIsServed(path: string)
    requires Splittable(path) && |path| > 0 && Redirect(path).Some?
    ensures var target := Redirect(path).value;
      && Splittable(target)
      && SplitAction(target) == ActionSplit(target, [])
      && Redirect(target) == None
  {
  }

  /** The handler `ServeHTTP` hands a request to, by its action. */
  datatype Handler = LoginHandler | LogoutHandler | AddHandler | RemoveHandler | RequestNodeHandler

  function HandlerFor(action: string): (h: Handler)
    ensures h == RequestNodeHandler <==> action !in {"login", "logout", "add", "remove"}
    ensures h == LoginHandler <==> action == "login"
    ensures h == LogoutHandler <==> action == "logout"
    ensures h == AddHandler <==> action == "add"
    ensures h == RemoveHandler <==> action == "remove"
  {
    match action
    case "login" => LoginHandler
    case "logout" => LogoutHandler
    case "add" => AddHandler
    case "remove" => RemoveHandler
    case _ => RequestNodeHandler
  }

  /** `service.NodeInfo` as far as the request context uses it. */
  class NodeInfo {
    var path: string
    var nodeType: string
    var title: string

    constructor (path: string, nodeType: string, title: string)
      ensures this.path == path && this.nodeType == nodeType && this.title == title
    {
      this.path := path;
      this.nodeType := nodeType;
      this.title := title;
    }
  }

  /** What a node worker answers to a request. */
  datatype Response = Response(body: seq<bv8>, redirect: string, node: NodeInfo?, raw: bool)

  /** How the HTTP reply is produced: a 303 redirect, or the page (raw, or rendered in the
      master template, in the edit view for the edit action). */
  datatype Delivery = SeeOther(location: string) | Page(raw: bool, editView: bool)

  /** `reqContext`: the request's node and action. */
  class ReqContext {
    var node: NodeInfo?
    var action: string

    constructor ()
      ensures node == null && action == []
    {
      node := null;
      action := [];
    }

    /** The start of `ServeHTTP`: records the request's action and decides between a
        redirect and serving the node path. */
    method Route(path: string) returns (nodePath: string, redirect: Option<string>)
      requires Splittable(path) && |path| > 0
      modifies this`action
      ensures action == SplitAction(path).action && nodePath == SplitAction(path).nodePath
      ensures redirect == Redirect(path)
    {
      var split := SplitAction(path);
      nodePath, action := split.nodePath, split.action;
      if |action| == 0 && nodePath[|nodePath| - 1] != '/' {
        return nodePath, Some(nodePath + "/");
      }
      return nodePath, None;
    }

    /** A replacement node from the worker becomes the context node, but keeps the path of the
        node it replaces; the replaced node object itself is left as it was. */
    method ReplaceNode(replacement: NodeInfo?)
      requires node != null
      modifies this`node, replacement
      ensures replacement == null ==> node == old(node)
      ensures replacement != null ==>
        && node == replacement
        && node.path == old(node.path)
        && node.nodeType == old(replacement.nodeType)
        && node.title == old(replacement.title)
      ensures replacement != old(node) ==> unchanged(old(node))
    {
      if replacement != null {
        var oldPath := node.path;
        node := replacement;
        node.path := oldPath;
      }
    }

    /** The end of `RequestNode`: an answer with neither body nor redirect is an error; otherwise
        the replacement node is taken in and the reply is the redirect or the page. */
    method Deliver(res: Response) returns (r: Result<Delivery>)
      requires node != null
      modifies this`node, res.node
      ensures |res.body| == 0 && |res.redirect| == 0 ==>
        r == Err(Panic("Got empty response.")) && node == old(node) && (res.node != null ==> unchanged(res.node))
      ensures |res.body| > 0 || |res.redirect| > 0 ==>
        && (res.node == null ==> node == old(node))
        && (res.node != null ==> node == res.node && node.path == old(node.path)
                                 && node.nodeType == old(res.node.nodeType) && node.title == old(res.node.title))
        && r == if |res.redirect| > 0 then Ok(SeeOther(res.redirect)) else Ok(Page(res.raw, action == "edit"))
    {
      if |res.body| == 0 && |res.redirect| == 0 {
        return Err(Panic("Got empty response."));
      }
      ReplaceNode(res.node);
      if |res.redirect| > 0 {
        return Ok(SeeOther(res.redirect));
      }
      return Ok(Page(res.raw, action == "edit"));
    }
  }
}
