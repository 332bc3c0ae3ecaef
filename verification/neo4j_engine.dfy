/**
 * `Neo4jRESTEngine`: the engine facade. It turns graph operations into commands, hands
 * them to the current executor (atomic, or the batch of an open transaction), maps HTTP
 * error statuses to not-found errors, and keeps a stack of executors for transactions.
 */
module Neo4jEngine {
  import opened Values
  import Commands
  import opened Urls
  import opened Content
  import opened Elements
  import opened ContentLists
  import opened Rest

  /** The executor commands currently go to. */
  datatype Executor = Atomic(atomic: AtomicRest) | Batching(batched: BatchedRest)

  /** The batch executors among a list of executors. */
  function BatchObjects(es: seq<Executor>): (s: set<BatchedRest>)
    ensures forall i :: 0 <= i < |es| && es[i].Batching? ==> es[i].batched in s
  {
    set i | 0 <= i < |es| && es[i].Batching? :: es[i].batched
  }

  /** `_remove_none(data)`: the entries whose value is not `None`. */
  function RemoveNone(data: map<string, Value>): (r: map<string, Value>)
    ensures forall k :: k in r <==> k in data && !data[k].Null?
    ensures forall k :: k in r ==> r[k] == data[k]
  {
    map k | k in data && !data[k].Null? :: data[k]
  }

  /** Removing the `None`s twice is removing them once, and a map without any is kept whole. */
  lemma RemoveNoneIdempotent(data: map<string, Value>)
    ensures RemoveNone(RemoveNone(data)) == RemoveNone(data)
    ensures (forall k :: k in data ==> !data[k].Null?) ==> RemoveNone(data) == data
  {
  }

  /** What `_get_uri_id` returns: an element's uri relative to the engine, or an integer id. */
  datatype UriId = UriId(uri: Option<string>, id: Option<int>)

  /**
   * `_get_uri_id(element)` as written: an element is addressed by its uri made relative
   * to the base URL, an integer by itself, and anything else is a TypeError.
   */
  function UriIdAsWritten<E(==)>(arg: Arg<E>, baseUrl: string): (r: Result<UriId>)
    reads if arg.ElementArg? then {arg.el.content} else {}
    ensures arg.IntArg? ==> r == Ok(UriId(None, Some(arg.i)))
    ensures arg.NoneArg? || arg.OtherArg? ==> r == Err(TypeError)
    ensures arg.ElementArg? && RelativeUri(arg.el.content, baseUrl).Err? ==> r == Err(RelativeUri(arg.el.content, baseUrl).error)
    ensures arg.ElementArg? && RelativeUri(arg.el.content, baseUrl).Ok? ==> r == Ok(UriId(Some(RelativeUri(arg.el.content, baseUrl).value), None))
  {
    match arg
    case ElementArg(el) =>
      var rel :- RelativeUri(el.content, baseUrl);
      Ok(UriId(Some(rel), None))
    case IntArg(i) => Ok(UriId(None, Some(i)))
    case _ => Err(TypeError)
  }

  /** The uri of a content made relative to the base URL, as `relative_url(content.uri, base_url)`. */
  function RelativeUri(c: Future, baseUrl: string): (r: Result<string>)
    reads c
    ensures c.Uri().Err? ==> r == Err(c.Uri().error)
    ensures c.Uri().Ok? ==> r == RelativeUrl(c.Uri().value, baseUrl)
  {
    var u :- c.Uri();
    RelativeUrl(u, baseUrl)
  }

  /** A content that is still waiting for job `cid` of the current batch. */
  predicate PendingRef(c: Future)
    reads c
  {
    (c.cls == ElementContent || c.cls == IndexContent) && !c.Ready() && c.cid.Some? && c.cid.value >= 0
  }

  /**
   * `_get_uri_id(element)` as evidently intended: a pending element is addressed by its
   * forward reference `{cid}`, which the batch endpoint resolves; everything else as written.
   */
  function UriIdOf<E(==)>(arg: Arg<E>, baseUrl: string): (r: Result<UriId>)
    reads if arg.ElementArg? then {arg.el.content} else {}
    ensures arg.ElementArg? && PendingRef(arg.el.content) ==>
      r == Ok(UriId(Some(Commands.ForwardRef(arg.el.content.cid.value)), None))
    ensures !(arg.ElementArg? && PendingRef(arg.el.content)) ==> r == UriIdAsWritten(arg, baseUrl)
    ensures r.Ok? ==> (r.value.uri.Some? <==> arg.ElementArg?) && (r.value.id.Some? <==> arg.IntArg?)
    ensures r.Ok? && r.value.uri.Some? ==> Given(r.value.uri)
  {
    if arg.ElementArg? && PendingRef(arg.el.content) then
      Ok(UriId(Some(Commands.ForwardRef(arg.el.content.cid.value)), None))
    else
      UriIdAsWritten(arg, baseUrl)
  }

  /** A forward reference has no scheme, network location, query or fragment. */
  lemma ForwardRefIsBarePath(cid: nat)
    ensures SplitUrl(Commands.ForwardRef(cid)) == UrlParts("", Commands.ForwardRef(cid))
  {
    var s := Commands.ForwardRef(cid);
    ForwardRefCharacters(cid);
    assert s[0] == '{';
  }

  /** A forward reference is `{`, digits and `}`: none of the characters that split a URL. */
  lemma ForwardRefCharacters(cid: nat)
    ensures var s := Commands.ForwardRef(cid);
      |s| > 0 && s[0] == '{' && forall i :: 0 <= i < |s| ==> s[i] != ':' && s[i] != '?' && s[i] != '#'
  {
    var digits := Strings.IntToString(cid);
    var s := Commands.ForwardRef(cid);
    assert s == ['{'] + digits + ['}'];
    forall i | 0 <= i < |s|
      ensures s[i] != ':' && s[i] != '?' && s[i] != '#'
    {
      if 0 < i < |s| - 1 {
        assert s[i] == digits[i - 1];
      }
    }
  }

  /**
   * As written, a pending element cannot be passed to the engine inside a transaction:
   * its forward reference has no network location, so `relative_url` raises ValueError
   * against any base URL that has one. As intended, the reference is passed through.
   */
  lemma ForwardRefRejectedAsWritten<E>(el: Element<E>, baseUrl: string)
    requires PendingRef(el.content)
    requires SplitUrl(baseUrl).netloc != ""
    ensures UriIdAsWritten(ElementArg(el), baseUrl) == Err(ValueError)
    ensures UriIdOf(ElementArg(el), baseUrl) == Ok(UriId(Some(Commands.ForwardRef(el.content.cid.value)), None))
  {
    ForwardRefIsBarePath(el.content.cid.value);
  }

  /** The error a RESTException with this status becomes: 404 is the missing thing, others are re-raised. */
  function NotFoundOn404(missing: Missing, status: int): (e: Error)
    ensures status == 404 <==> e == NotFound(missing)
    ensures status != 404 ==> e == RestError(status)
  {
    if status == 404 then NotFound(missing) else RestError(status)
  }

  /** The mapping of `get_*`, `update_*` and `delete_*`: a 404 means the element of that kind does not exist. */
  function ElementStatus(kind: ElementKind): (m: int -> Error)
    ensures forall status :: m(status) == NotFoundOn404(if kind == VertexKind then MissingVertex else MissingEdge, status)
  {
    s => NotFoundOn404(if kind == VertexKind then MissingVertex else MissingEdge, s)
  }

  /** `create_edge`'s mapping: 404 is a missing origin, 400 a missing destination. */
  function CreateEdgeStatus(status: int): (e: Error)
    ensures status == 404 <==> e == NotFound(MissingOrigin)
    ensures status == 400 <==> e == NotFound(MissingDestination)
    ensures status != 404 && status != 400 ==> e == RestError(status)
  {
    if status == 404 then NotFound(MissingOrigin)
    else if status == 400 then NotFound(MissingDestination)
    else RestError(status)
  }

  /** A RESTException that is not caught keeps its status. */
  function Unmapped(status: int): (e: Error)
    ensures e.RestError? && e.status == status
  {
    RestError(status)
  }

  /**
   * `update_vertex`/`delete_vertex`'s mapping as written: the 404 message formats the id
   * with `%d`, which is `None` when a vertex was passed, so a TypeError replaces the
   * not-found error.
   */
  function VertexStatusAsWritten(status: int, id: Option<int>): (e: Error)
    ensures status == 404 && id.None? ==> e == TypeError
    ensures status == 404 && id.Some? ==> e == NotFound(MissingVertex)
    ensures status != 404 ==> e == RestError(status)
  {
    if status == 404 then (if id.None? then TypeError else NotFound(MissingVertex)) else RestError(status)
  }

  /** Updating or deleting a vertex that is gone, through its wrapper, fails with the wrong error as written. */
  lemma VertexNotFoundLostAsWritten()
    ensures VertexStatusAsWritten(404, None) == TypeError
    ensures NotFoundOn404(MissingVertex, 404) == NotFound(MissingVertex)
    ensures forall status: int :: status != 404 ==> VertexStatusAsWritten(status, None) == NotFoundOn404(MissingVertex, status)
  {
  }

  /** The resource type of an element kind: `node` or `relationship`. */
  function KindName(kind: ElementKind): (s: string)
    ensures kind == VertexKind ==> s == "node"
    ensures kind == EdgeKind ==> s == "relationship"
  {
    if kind == VertexKind then "node" else "relationship"
  }

  /** The index type chosen by `index_create`, `index_get` and `index_delete`; other classes are a TypeError. */
  function IndexTypeName(t: ElementType): (r: Result<string>)
    ensures t == VertexType <==> r == Ok("node")
    ensures t == EdgeType <==> r == Ok("relationship")
    ensures t == OtherType <==> r == Err(TypeError)
  {
    match t
    case VertexType => Ok("node")
    case EdgeType => Ok("relationship")
    case OtherType => Err(TypeError)
  }

  /** The JavaScript return filter bodies of `_get_vertices`, kept as opaque text. */
  const InFilterBody := "position.length() == 1 && position.startNode().equals(position.lastRelationship().getEndNode())"
  const OutFilterBody := "position.length() == 1 && position.startNode().equals(position.lastRelationship().getStartNode())"

  function ReturnFilter(body: string): (v: Value)
    ensures v.Dict? && v.fields.Keys == {"language", "body"}
    ensures Item(v, "language") == Ok(Str("javascript")) && Item(v, "body") == Ok(Str(body))
  {
    Dict(map["language" := Str("javascript"), "body" := Str(body)])
  }

  /** One entry of the `relationships` parameter: a direction and a relationship type. */
  function RelationshipSpec(direction: string, relType: string): (v: Value)
    ensures v.Dict? && v.fields.Keys == {"direction", "type"}
    ensures Item(v, "direction") == Ok(Str(direction)) && Item(v, "type") == Ok(Str(relType))
  {
    Dict(map["direction" := Str(direction), "type" := Str(relType)])
  }

  /**
   * `_get_vertices`' traversal parameters: one relationship entry per label, depth 1,
   * and, only when no label is given and the direction is `in` or `out`, a return filter
   * keeping the nodes at the far end in that direction.
   */
  function VerticesParams(direction: string, labels: seq<string>): (p: Value)
    ensures p.Dict? && p.fields.Keys <= {"relationships", "max_depth", "return_filter"}
    ensures Item(p, "max_depth") == Ok(Int(1))
    ensures "relationships" in p.fields && p.fields["relationships"].List?
    ensures var rels := p.fields["relationships"].items;
      |rels| == |labels| && forall i :: 0 <= i < |labels| ==> rels[i] == RelationshipSpec(direction, labels[i])
    ensures "return_filter" in p.fields <==> labels == [] && (direction == "in" || direction == "out")
    ensures labels == [] && direction == "in" ==> p.fields["return_filter"] == ReturnFilter(InFilterBody)
    ensures labels == [] && direction == "out" ==> p.fields["return_filter"] == ReturnFilter(OutFilterBody)
  {
    var rels := seq(|labels|, i requires 0 <= i < |labels| => RelationshipSpec(direction, labels[i]));
    var base := map["relationships" := List(rels), "max_depth" := Int(1)];
    if labels == [] && direction == "in" then Dict(base["return_filter" := ReturnFilter(InFilterBody)])
    else if labels == [] && direction == "out" then Dict(base["return_filter" := ReturnFilter(OutFilterBody)])
    else Dict(base)
  }

  /**
   * The uri `out_vertex`/`in_vertex` fetch: the edge's `start` or `end` item, which must be
   * a string, made relative to the base URL. Parsing a list or a dict fails on its cache
   * key (TypeError), parsing `None`, a number or a boolean on the missing `find`
   * (AttributeError).
   */
  function EndpointUri(c: Future, key: string, baseUrl: string): (r: Result<string>)
    reads c
    ensures c.GetItem(key).Err? ==> r == Err(c.GetItem(key).error)
    ensures c.GetItem(key).Ok? && (c.GetItem(key).value.List? || c.GetItem(key).value.Dict?) ==> r == Err(TypeError)
    ensures c.GetItem(key).Ok? && (c.GetItem(key).value.Null? || c.GetItem(key).value.Int? || c.GetItem(key).value.Bool?) ==>
      r == Err(AttributeError)
    ensures c.GetItem(key).Ok? && c.GetItem(key).value.Str? ==> r == RelativeUrl(c.GetItem(key).value.s, baseUrl)
    ensures r.Ok? ==> |r.value| > 0 && r.value[0] == '/'
  {
    var end :- c.GetItem(key);
    match end
    case Str(s) => RelativeUrl(s, baseUrl)
    case List(_) => Err(TypeError)
    case Dict(_) => Err(TypeError)
    case _ => Err(AttributeError)
  }

  /** An `Index` object: its content and the element kind it was declared for. */
  datatype IndexHandle = IndexHandle(content: Future, elementKind: ElementKind)

  /** The first argument of `index_delete`: an `Index` object, or an index name. */
  datatype IndexRef = ByIndex(index: IndexHandle) | ByName(name: string)

  /**
   * The resource `index_delete` removes: the uri of an `Index` object made relative to the
   * base URL, or `/index/<type>/<name>`; without an element type that is an AssertionError.
   */
  function IndexPath(index: IndexRef, t: Option<ElementType>, baseUrl: string): (r: Result<string>)
    reads if index.ByIndex? then {index.index.content} else {}
    ensures index.ByIndex? ==> r == RelativeUri(index.index.content, baseUrl)
    ensures index.ByName? && t.None? ==> r == Err(AssertionError)
    ensures index.ByName? && t == Some(OtherType) ==> r == Err(TypeError)
    ensures index.ByName? && t.Some? && t.value != OtherType ==>
      r == Ok("/index/" + IndexTypeName(t.value).value + "/" + index.name)
  {
    match index
    case ByIndex(ix) => RelativeUri(ix.content, baseUrl)
    case ByName(name) =>
      if t.None? then Err(AssertionError)
      else
        var typeName :- IndexTypeName(t.value);
        Ok("/index/" + typeName + "/" + name)
  }

  /**
   * The command `index_put` builds: the element must be of the index's kind (TypeError
   * otherwise, checked first); it posts to the index's relative uri, naming the element by
   * its own uri as it is.
   */
  function IndexPutCommand<E(==)>(index: IndexHandle, element: Element<E>, key: string, value: string, baseUrl: string)
    : (r: Result<Commands.Command>)
    reads index.content, element.content
    ensures element.kind != index.elementKind ==> r == Err(TypeError)
    ensures r.Ok? <==>
      element.kind == index.elementKind && RelativeUri(index.content, baseUrl).Ok? && element.content.Uri().Ok?
    ensures r.Ok? ==>
      r.value == Commands.IndexElement(RelativeUri(index.content, baseUrl).value, element.content.Uri().value, key, value)
  {
    if element.kind != index.elementKind then Err(TypeError)
    else
      var indexUri :- RelativeUri(index.content, baseUrl);
      var elementUri :- element.content.Uri();
      Ok(Commands.IndexElement(indexUri, elementUri, key, value))
  }

  class Neo4jRestEngine {
    const baseUrl: string
    var rest: Executor
    var restStack: seq<Executor>

    /** The batch executor commands currently go to, if any. */
    ghost function Running(): set<object>
      reads this
    {
      if rest.Batching? then {rest.batched} else {}
    }

    /** The futures of the current batch, which a flush resolves. */
    ghost function RunningFutures(): set<object>
      reads this, Running()
    {
      if rest.Batching? then set i | 0 <= i < |rest.batched.futures| :: rest.batched.futures[i] else {}
    }

    /** Every batch executor, current or stacked, keeps its positional invariant. */
    ghost predicate Valid()
      reads this, Running(), BatchObjects(restStack)
    {
      (rest.Batching? ==> rest.batched.Valid()) &&
      forall i :: 0 <= i < |restStack| && restStack[i].Batching? ==> restStack[i].batched.Valid()
    }

    /** `Neo4jRESTEngine(protocol, path)`: base URL `protocol:path/`, an atomic executor, an empty stack. */
    constructor (protocol: Option<string>, path: string)
      ensures baseUrl == PyStr(protocol) + ":" + path + "/"
      ensures rest.Atomic? && rest.atomic.baseUrl == Strings.RStrip(baseUrl, '/') && restStack == []
      ensures Valid()
    {
      baseUrl := PyStr(protocol) + ":" + path + "/";
      var a := new AtomicRest(PyStr(protocol) + ":" + path + "/");
      rest := Atomic(a);
      restStack := [];
    }

    /**
     * What handing a command to the current executor did: the atomic executor answers at
     * once, with the RESTException of an error status mapped by `onStatus`; the batch
     * executor queues it under the next id and answers a pending future.
     */
    twostate predicate Dispatched(cmd: Commands.Command, cls: ContentClass, reply: Reply, onStatus: int -> Error,
                                  new r: Result<Option<Future>>)
      reads this, Running(), if r.Ok? && r.value.Some? then {r.value.value} else {}
    {
      old(rest) == rest &&
      (rest.Atomic? && reply.HttpError? ==> r == Err(onStatus(reply.status))) &&
      (rest.Atomic? && reply.Replied? && reply.body.Null? ==> r == Ok(None)) &&
      (rest.Atomic? && reply.Replied? && !reply.body.Null? ==>
        r.Ok? && r.value.Some? && fresh(r.value.value) && r.value.value.cls == cls &&
        r.value.value.cid.None? && r.value.value.response == reply.body) &&
      (rest.Batching? ==>
        r.Ok? && r.value.Some? && fresh(r.value.value) && r.value.value.cls == cls &&
        r.value.value.cid == Some(old(rest.batched.counter)) && !r.value.value.Ready() &&
        rest.batched.counter == old(rest.batched.counter) + 1 &&
        rest.batched.batch == old(rest.batched.batch) + [Commands.Batch(cmd, old(rest.batched.counter))] &&
        rest.batched.futures == old(rest.batched.futures) + [r.value.value])
    }

    /** Nothing was handed to the executor. */
    twostate predicate Untouched()
      reads this, Running()
    {
      old(rest) == rest &&
      (rest.Batching? ==>
        rest.batched.counter == old(rest.batched.counter) && rest.batched.batch == old(rest.batched.batch) &&
        rest.batched.futures == old(rest.batched.futures))
    }

    /** `self.rest.execute(cmd, cls)`, with the caller's mapping of a RESTException's status. */
    method Dispatch(cmd: Commands.Command, cls: ContentClass, reply: Reply, onStatus: int -> Error)
      returns (r: Result<Option<Future>>)
      requires Valid()
      modifies Running()
      ensures Valid()
      ensures Dispatched(cmd, cls, reply, onStatus, r)
    {
      match rest
      case Atomic(a) =>
        var sent, raw := a.Execute(cmd, cls, reply);
        r := if reply.HttpError? then Err(onStatus(reply.status)) else raw;
      case Batching(b) =>
        var f := b.Execute(cmd, cls);
        r := Ok(Some(f));
    }

    /** `_start_batch`: the current executor is pushed and a new, empty batch executor takes over. */
    method StartBatch()
      requires Valid()
      modifies this
      ensures Valid()
      ensures restStack == old(restStack) + [old(rest)]
      ensures rest.Batching? && fresh(rest.batched) && rest.batched.baseUrl == Strings.RStrip(baseUrl, '/')
      ensures rest.batched.counter == 0 && rest.batched.batch == [] && rest.batched.futures == []
    {
      var b := new BatchedRest(baseUrl);
      restStack := restStack + [rest];
      rest := Batching(b);
    }

    /** `_send_batch`: flushes the current executor; an atomic one has no `flush`. */
    method SendBatch(reply: BatchReply) returns (o: Outcome)
      requires Valid()
      modifies Running(), RunningFutures()
      ensures Valid()
      ensures rest.Atomic? ==> o == Fail(AttributeError)
      ensures rest.Batching? && o == Pass ==>
        rest.batched.counter == 0 && rest.batched.batch == [] && rest.batched.futures == []
      ensures rest.Batching? && o != Pass ==>
        rest.batched.counter == old(rest.batched.counter) && rest.batched.batch == old(rest.batched.batch) &&
        rest.batched.futures == old(rest.batched.futures)
      ensures rest.Batching? && reply.BatchHttpError? ==> o == Fail(RestError(reply.status))
      ensures rest.Batching? && reply.BatchReplied? ==>
        var rs := reply.responses;
        var fs := old(rest.batched.futures);
        var m := if |fs| < |rs| then |fs| else |rs|;
        var k := FirstFailure(rs, m);
        (forall i :: 0 <= i < k ==> fs[i].response == Body(rs[i]).value) &&
        (forall i :: k <= i < |fs| ==> fs[i].response == old(fs[i].response)) &&
        (o == Pass <==> k == m)
    {
      match rest
      case Atomic(_) =>
        o := Fail(AttributeError);
      case Batching(b) =>
        var sent;
        sent, o := b.Flush(reply);
    }

    /** `_end_batch`: the executor on top of the stack is restored; an empty stack is an IndexError. */
    method EndBatch() returns (o: Outcome)
      requires Valid()
      modifies this
      ensures Valid()
      ensures old(restStack) == [] ==> o == Fail(IndexError) && rest == old(rest) && restStack == []
      ensures old(restStack) != [] ==>
        o == Pass && rest == old(restStack)[|old(restStack)| - 1] && restStack == old(restStack)[..|old(restStack)| - 1]
    {
      if restStack == [] {
        return Fail(IndexError);
      }
      var top := restStack[|restStack| - 1];
      rest := top;
      restStack := restStack[..|restStack| - 1];
      o := Pass;
    }

    /**
     * Entering `transaction(nest)`: with no transaction open, nesting is forced. A nested
     * transaction pushes the executor and starts a new batch; otherwise nothing changes.
     */
    method TransactionEnter(nest: bool) returns (nested: bool)
      requires Valid()
      modifies this
      ensures Valid()
      ensures nested <==> nest || old(restStack) == []
      ensures nested ==> restStack == old(restStack) + [old(rest)] && rest.Batching? && fresh(rest.batched)
      ensures nested ==> rest.batched.counter == 0 && rest.batched.batch == [] && rest.batched.futures == []
      ensures !nested ==> rest == old(rest) && restStack == old(restStack)
    {
      nested := nest || restStack == [];
      if nested {
        StartBatch();
      }
    }

    /**
     * Leaving the transaction, given how its body ended. A nested transaction flushes only
     * when the body completed normally, and pops the executor in every case; the body's
     * exception, then the flush's, is what propagates. A transaction that did not nest
     * passes the body's outcome through and changes nothing.
     */
    method TransactionExit(nested: bool, body: Outcome, reply: BatchReply) returns (o: Outcome)
      requires Valid()
      modifies this, Running(), RunningFutures()
      ensures Valid()
      ensures !nested ==> o == body && rest == old(rest) && restStack == old(restStack) && unchanged(old(Running()))
      ensures nested && old(restStack) != [] ==>
        rest == old(restStack)[|old(restStack)| - 1] && restStack == old(restStack)[..|old(restStack)| - 1]
      ensures nested && old(restStack) == [] ==> o == Fail(IndexError)
      ensures body.Fail? ==> unchanged(old(Running())) && unchanged(old(RunningFutures()))
      ensures body.Fail? && old(restStack) != [] ==> o == body
      ensures nested && body == Pass && old(rest).Batching? && old(restStack) != [] && o == Pass ==>
        old(rest).batched.counter == 0 && old(rest).batched.batch == [] && old(rest).batched.futures == []
      ensures nested && body == Pass && old(rest).Batching? && old(restStack) != [] && reply.BatchHttpError? ==>
        o == Fail(RestError(reply.status))
      ensures nested && body == Pass && old(rest).Atomic? ==> o.Fail?
      ensures nested && body == Pass && old(rest).Atomic? && old(restStack) != [] ==> o == Fail(AttributeError)
      ensures nested && body == Pass && old(rest).Batching? && old(restStack) != [] && reply.BatchReplied? ==>
        var rs := reply.responses;
        var fs := old(rest.batched.futures);
        var m := if |fs| < |rs| then |fs| else |rs|;
        var k := FirstFailure(rs, m);
        (forall i :: 0 <= i < k ==> fs[i].response == Body(rs[i]).value) &&
        (forall i :: k <= i < |fs| ==> fs[i].response == old(fs[i].response)) &&
        (o == Pass <==> k == m)
    {
      if !nested {
        return body;
      }
      var flushed := Pass;
      if body == Pass {
        flushed := SendBatch(reply);
      }
      var popped := EndBatch();
      if popped.Fail? {
        o := popped;
      } else if body.Fail? {
        o := body;
      } else {
        o := flushed;
      }
    }

    /**
     * `with engine.transaction(nest): body`, the body abstracted to how it ended: the
     * executor and the depth of the stack are what they were before, whether the body
     * completed or raised.
     */
    method Transaction(nest: bool, body: Outcome, reply: BatchReply) returns (o: Outcome)
      requires Valid()
      modifies this, Running(), RunningFutures()
      ensures Valid()
      ensures rest == old(rest) && restStack == old(restStack)
      ensures body.Fail? ==> o == body
    {
      var nested := TransactionEnter(nest);
      o := TransactionExit(nested, body, reply);
    }

    /** `create_vertex(data)`: a node with the data's non-`None` properties. */
    method CreateVertex(data: map<string, Value>, reply: Reply) returns (sent: Commands.Command, r: Result<Option<Future>>)
      requires Valid()
      modifies Running()
      ensures Valid()
      ensures sent == Commands.CreateNode(Dict(RemoveNone(data)))
      ensures Dispatched(sent, ElementContent, reply, Unmapped, r)
    {
      sent := Commands.CreateNode(Dict(RemoveNone(data)));
      r := Dispatch(sent, ElementContent, reply, Unmapped);
    }

    /** `get_vertex(id)` and `get_edge(id)`: `GET /<type>/<id>`, a 404 meaning the element does not exist. */
    method GetElement(kind: ElementKind, id: int, reply: Reply) returns (sent: Commands.Command, r: Result<Option<Future>>)
      requires Valid()
      modifies Running()
      ensures Valid()
      ensures sent == Commands.Command("GET", "/" + KindName(kind) + "/" + Strings.IntToString(id), Null)
      ensures Dispatched(sent, ElementContent, reply, ElementStatus(kind), r)
    {
      var cmd := Commands.Get(None, Some(KindName(kind)), Some(id));
      sent := cmd.value;
      r := Dispatch(sent, ElementContent, reply, ElementStatus(kind));
    }

    /**
     * The request half of `update_vertex` and `update_edge`: `PUT` the non-`None` data as
     * the element's properties, a 404 meaning the element does not exist. `raw` is what
     * the executor answered, which the caller discards.
     */
    method PutProperties<E(==)>(kind: ElementKind, target: Arg<E>, data: map<string, Value>, reply: Reply)
      returns (sent: Option<Commands.Command>, raw: Result<Option<Future>>, o: Outcome)
      requires Valid()
      modifies Running()
      ensures Valid()
      ensures var u := old(UriIdOf(target, baseUrl));
        (u.Err? ==> o == Fail(u.error) && sent.None? && Untouched()) &&
        (u.Ok? ==> sent == Some(Commands.Update(u.value.uri, u.value.id, Some(KindName(kind)), Dict(RemoveNone(data))).value))
      ensures sent.Some? ==> Dispatched(sent.value, PlainContent, reply, ElementStatus(kind), raw)
      ensures sent.Some? ==> (o == Pass <==> raw.Ok?) && (raw.Err? ==> o == Fail(raw.error))
      ensures sent.Some? && rest.Atomic? && reply.HttpError? ==>
        o == Fail(NotFoundOn404(if kind == VertexKind then MissingVertex else MissingEdge, reply.status))
      ensures sent.Some? && (rest.Batching? || reply.Replied?) ==> o == Pass
    {
      var u := UriIdOf(target, baseUrl);
      if u.Err? {
        return None, Ok(None), Fail(u.error);
      }
      var cmd := Commands.Update(u.value.uri, u.value.id, Some(KindName(kind)), Dict(RemoveNone(data)));
      sent := Some(cmd.value);
      raw := Dispatch(cmd.value, PlainContent, reply, ElementStatus(kind));
      o := if raw.Err? then Fail(raw.error) else Pass;
    }

    /**
     * `update_vertex` and `update_edge`: the `PUT` of `PutProperties`, after which a target
     * that is a resolved wrapper of that kind has its local property map replaced by
     * exactly that data; an id, or a wrapper of the other kind, is left alone, and so is
     * every wrapper when the request fails.
     */
    method UpdateElement<E(==)>(kind: ElementKind, target: Arg<E>, data: map<string, Value>, reply: Reply)
      returns (sent: Option<Commands.Command>, raw: Result<Option<Future>>, o: Outcome)
      requires Valid()
      modifies Running(), if target.ElementArg? then {target.el.content} else {}
      ensures Valid()
      ensures var u := old(UriIdOf(target, baseUrl));
        (u.Err? ==> o == Fail(u.error) && sent.None? && Untouched()) &&
        (u.Ok? ==> sent == Some(Commands.Update(u.value.uri, u.value.id, Some(KindName(kind)), Dict(RemoveNone(data))).value))
      ensures sent.Some? ==> Dispatched(sent.value, PlainContent, reply, ElementStatus(kind), raw)
      ensures sent.Some? && rest.Atomic? && reply.HttpError? ==>
        o == Fail(NotFoundOn404(if kind == VertexKind then MissingVertex else MissingEdge, reply.status))
      ensures sent.Some? && raw.Err? ==> o == Fail(raw.error)
      ensures sent.Some? && raw.Ok? && !(target.ElementArg? && target.el.kind == kind && old(target.el.content.Ready())) ==>
        o == Pass
      ensures sent.Some? && raw.Ok? && target.ElementArg? && target.el.kind == kind && old(target.el.content.Ready()) ==>
        (o == Pass <==> old(target.el.content.Data()).Ok? && old(target.el.content.Data()).value.Dict?)
      ensures o == Pass && target.ElementArg? && target.el.kind == kind && old(target.el.content.Ready()) ==>
        target.el.content.Data() == Ok(Dict(RemoveNone(data))) && old(target.el.content.response).Dict? &&
        target.el.content.response == Dict(old(target.el.content.response).fields["data" := Dict(RemoveNone(data))])
      ensures target.ElementArg? && (target.el.kind != kind || !old(target.el.content.Ready()) || sent.None?) ==>
        target.el.content.response == old(target.el.content.response)
      ensures target.ElementArg? && sent.Some? && rest.Atomic? && reply.HttpError? ==>
        target.el.content.response == old(target.el.content.response)
    {
      sent, raw, o := PutProperties(kind, target, data, reply);
      if o == Pass && target.ElementArg? && target.el.kind == kind && target.el.content.Ready() {
        assert raw.Ok? && target.el.content.response == old(target.el.content.response);
        o := RefreshData(target.el.content, Dict(RemoveNone(data)));
      }
    }

    /**
     * The local refresh after an update: `content.data.clear()` then `update(data)`, so the
     * content's `"data"` becomes exactly the new map. A response without `"data"` is a
     * KeyError and a `"data"` that is not a map has no `clear`.
     */
    method RefreshData(c: Future, data: Value) returns (o: Outcome)
      requires Valid() && data.Dict?
      modifies c
      ensures Valid()
      ensures old(c.Data()).Err? ==> o == Fail(old(c.Data()).error) && c.response == old(c.response)
      ensures old(c.Data()).Ok? && !old(c.Data()).value.Dict? ==> o == Fail(AttributeError) && c.response == old(c.response)
      ensures o == Pass <==> old(c.Data()).Ok? && old(c.Data()).value.Dict?
      ensures o == Pass ==> c.Data() == Ok(data) && c.response == Dict(old(c.response).fields["data" := data])
    {
      var current := c.Data();
      if current.Err? {
        return Fail(current.error);
      }
      if !current.value.Dict? {
        return Fail(AttributeError);
      }
      o := c.SetItem("data", data);
      assert o == Pass;
    }

    /**
     * `delete_vertex` and `delete_edge`: `DELETE` the element, a 404 meaning it does not
     * exist. `raw` is what the executor answered, which the code discards.
     */
    method DeleteElement<E(==)>(kind: ElementKind, target: Arg<E>, reply: Reply)
      returns (sent: Option<Commands.Command>, raw: Result<Option<Future>>, o: Outcome)
      requires Valid()
      modifies Running()
      ensures Valid()
      ensures var u := old(UriIdOf(target, baseUrl));
        (u.Err? ==> o == Fail(u.error) && sent.None? && Untouched()) &&
        (u.Ok? ==> sent == Some(Commands.Delete(u.value.uri, u.value.id, Some(KindName(kind))).value))
      ensures sent.Some? ==> Dispatched(sent.value, PlainContent, reply, ElementStatus(kind), raw)
      ensures sent.Some? ==> (o == Pass <==> raw.Ok?) && (raw.Err? ==> o == Fail(raw.error))
      ensures sent.Some? && rest.Atomic? && reply.HttpError? ==>
        o == Fail(NotFoundOn404(if kind == VertexKind then MissingVertex else MissingEdge, reply.status))
      ensures sent.Some? && (rest.Batching? || reply.Replied?) ==> o == Pass
    {
      var u := UriIdOf(target, baseUrl);
      if u.Err? {
        return None, Ok(None), Fail(u.error);
      }
      var cmd := Commands.Delete(u.value.uri, u.value.id, Some(KindName(kind)));
      sent := Some(cmd.value);
      raw := Dispatch(cmd.value, PlainContent, reply, ElementStatus(kind));
      o := if raw.Err? then Fail(raw.error) else Pass;
    }

    /**
     * `create_edge(outv, label, inv, data)`: a relationship from one vertex (element or id)
     * to another. A 404 means the origin is missing and a 400 the destination.
     */
    method CreateEdge<E(==)>(outV: Arg<E>, relType: string, inV: Arg<E>, data: map<string, Value>, reply: Reply)
      returns (sent: Option<Commands.Command>, r: Result<Option<Future>>)
      requires Valid()
      modifies Running()
      ensures Valid()
      ensures var f := old(UriIdOf(outV, baseUrl));
        f.Err? ==> r == Err(f.error) && sent.None? && Untouched()
      ensures var f, t := old(UriIdOf(outV, baseUrl)), old(UriIdOf(inV, baseUrl));
        f.Ok? && t.Err? ==> r == Err(t.error) && sent.None? && Untouched()
      ensures old(UriIdOf(outV, baseUrl)).Ok? && old(UriIdOf(inV, baseUrl)).Ok? ==>
        var f, t := old(UriIdOf(outV, baseUrl)).value, old(UriIdOf(inV, baseUrl)).value;
        var c := Commands.CreateRelationship(relType, Dict(RemoveNone(data)), f.uri, f.id, t.uri, t.id);
        (c.Err? ==> r == Err(c.error) && sent.None? && Untouched()) &&
        (c.Ok? ==> sent == Some(c.value) && Dispatched(c.value, ElementContent, reply, CreateEdgeStatus, r))
    {
      var f := UriIdOf(outV, baseUrl);
      if f.Err? {
        return None, Err(f.error);
      }
      var t := UriIdOf(inV, baseUrl);
      if t.Err? {
        return None, Err(t.error);
      }
      var c := Commands.CreateRelationship(relType, Dict(RemoveNone(data)), f.value.uri, f.value.id, t.value.uri, t.value.id);
      if c.Err? {
        return None, Err(c.error);
      }
      sent := Some(c.value);
      r := Dispatch(c.value, ElementContent, reply, CreateEdgeStatus);
    }

    /**
     * `out_vertex(edge)` and `in_vertex(edge)`: fetches the vertex at the edge's `start`
     * (or `end`) uri, made relative to the engine.
     */
    method EdgeEnd<E(==)>(edge: Element<E>, start: bool, reply: Reply)
      returns (sent: Option<Commands.Command>, r: Result<Option<Future>>)
      requires Valid()
      modifies Running()
      ensures Valid()
      ensures var u := old(EndpointUri(edge.content, if start then "start" else "end", baseUrl));
        (u.Err? ==> r == Err(u.error) && sent.None? && Untouched()) &&
        (u.Ok? ==> sent == Some(Commands.Command("GET", u.value, Null)) && Dispatched(sent.value, ElementContent, reply, Unmapped, r))
    {
      var u := EndpointUri(edge.content, if start then "start" else "end", baseUrl);
      if u.Err? {
        return None, Err(u.error);
      }
      var cmd := Commands.Get(Some(u.value), None, None);
      sent := Some(cmd.value);
      r := Dispatch(cmd.value, ElementContent, reply, Unmapped);
    }

    /**
     * A request whose answer is a list of elements: the list content the executor answers
     * is wrapped for iteration with the default filter. An answer with no body has no
     * `as_elements` (AttributeError).
     */
    method ListElements(cmd: Commands.Command, kind: ElementKind, reply: Reply)
      returns (raw: Result<Option<Future>>, r: Result<ListIter<Neo4jRestEngine>>)
      requires Valid()
      modifies Running()
      ensures Valid()
      ensures Dispatched(cmd, ContentList, reply, Unmapped, raw)
      ensures raw.Err? ==> r == Err(raw.error)
      ensures raw == Ok(None) ==> r == Err(AttributeError)
      ensures raw.Ok? && raw.value.Some? ==>
        r.Ok? && fresh(r.value) && r.value.lst == raw.value.value && r.value.engine == this && r.value.kind == kind &&
        r.value.contentCls == ElementContent && r.value.items.None? && r.value.accept == AcceptAll
    {
      raw := Dispatch(cmd, ContentList, reply, Unmapped);
      if raw.Err? {
        return raw, Err(raw.error);
      }
      if raw.value.None? {
        return raw, Err(AttributeError);
      }
      var it := new ListIter(raw.value.value, this, kind, ElementContent, AcceptAll);
      r := Ok(it);
    }

    /**
     * `out_edges` … `both_vertices(vertex, labels)`: the vertex's relationships in the step's
     * direction (for edges), or a depth-1 traversal (for vertices), wrapped as elements.
     * `raw` is the list content the executor answered, which the iterator reads.
     */
    method Neighbours<E(==)>(vertex: Arg<E>, step: Step, labels: seq<string>, reply: Reply)
      returns (sent: Option<Commands.Command>, raw: Result<Option<Future>>, r: Result<ListIter<Neo4jRestEngine>>)
      requires Valid()
      modifies Running()
      ensures Valid()
      ensures sent.Some? ==> Dispatched(sent.value, ContentList, reply, Unmapped, raw)
      ensures r.Ok? ==> raw == Ok(Some(r.value.lst))
      ensures var u := old(UriIdOf(vertex, baseUrl));
        u.Err? ==> r == Err(u.error) && sent.None? && Untouched()
      ensures old(UriIdOf(vertex, baseUrl)).Ok? ==>
        var u := old(UriIdOf(vertex, baseUrl)).value;
        sent.Some? &&
        (YieldsEdges(step) ==> sent == Some(Commands.NodeRelationships(u.uri, u.id, Direction(step), Commands.LabelTuple(labels)).value)) &&
        (!YieldsEdges(step) ==> sent == Some(Commands.Traversal(u.uri, u.id, "node", VerticesParams(Direction(step), labels)).value))
      ensures sent.Some? && rest.Atomic? && reply.HttpError? ==> r == Err(RestError(reply.status))
      ensures sent.Some? && rest.Atomic? && reply.Replied? && reply.body.Null? ==> r == Err(AttributeError)
      ensures r.Ok? ==>
        fresh(r.value) && r.value.engine == this && r.value.contentCls == ElementContent &&
        r.value.kind == (if YieldsEdges(step) then EdgeKind else VertexKind) && r.value.items.None? &&
        r.value.lst.cls == ContentList && r.value.accept == AcceptAll
      ensures sent.Some? && rest.Batching? ==> r.Ok? && !r.value.lst.Ready()
    {
      var u := UriIdOf(vertex, baseUrl);
      if u.Err? {
        return None, Ok(None), Err(u.error);
      }
      var cmd: Result<Commands.Command>;
      if YieldsEdges(step) {
        cmd := Commands.NodeRelationships(u.value.uri, u.value.id, Direction(step), Commands.LabelTuple(labels));
      } else {
        cmd := Commands.Traversal(u.value.uri, u.value.id, "node", VerticesParams(Direction(step), labels));
      }
      sent := Some(cmd.value);
      raw, r := ListElements(cmd.value, if YieldsEdges(step) then EdgeKind else VertexKind, reply);
    }

    /** `index_create(name, element_type, config)`: `POST /index/<type>`, for vertex or edge indices only. */
    method IndexCreate(name: string, t: ElementType, config: map<string, Value>, reply: Reply)
      returns (sent: Option<Commands.Command>, r: Result<Option<Future>>)
      requires Valid()
      modifies Running()
      ensures Valid()
      ensures t == OtherType ==> r == Err(TypeError) && sent.None? && Untouched()
      ensures t == VertexType ==> sent == Some(Commands.CreateNodeIndex(name, config))
      ensures t == EdgeType ==> sent == Some(Commands.CreateRelationshipIndex(name, config))
      ensures sent.Some? ==> Dispatched(sent.value, IndexContent, reply, Unmapped, r)
    {
      if t == OtherType {
        return None, Err(TypeError);
      }
      var cmd := if t == VertexType then Commands.CreateNodeIndex(name, config) else Commands.CreateRelationshipIndex(name, config);
      sent := Some(cmd);
      r := Dispatch(cmd, IndexContent, reply, Unmapped);
    }

    /**
     * `index_get(name, element_type)`: lists the indices of the type and takes the one
     * called `name`; a missing name is a not-found error. Inside a batch the list is
     * still pending, so the lookup fails.
     */
    method IndexGet(name: string, t: ElementType, reply: Reply)
      returns (sent: Option<Commands.Command>, listed: Result<Option<Future>>, r: Result<Future>)
      requires Valid()
      modifies Running()
      ensures Valid()
      ensures t == OtherType ==> r == Err(TypeError) && sent.None? && Untouched()
      ensures t != OtherType ==> sent == Some(Commands.GetIndices(IndexTypeName(t).value))
      ensures sent.Some? ==> Dispatched(sent.value, ContentDict, reply, Unmapped, listed)
      ensures sent.Some? && rest.Atomic? && reply.HttpError? ==> r == Err(RestError(reply.status))
      ensures sent.Some? && rest.Atomic? && reply.Replied? ==>
        var rec := Record(reply.body, name);
        (reply.body.Null? ==> r == Err(AttributeError)) &&
        (!reply.body.Null? && rec.Err? && rec.error.KeyError? ==> r == Err(NotFound(MissingIndex))) &&
        (!reply.body.Null? && rec.Err? && !rec.error.KeyError? ==> r == Err(rec.error)) &&
        (!reply.body.Null? && rec.Ok? ==> r.Ok? && fresh(r.value) && r.value.cls == IndexContent && r.value.response == rec.value)
      ensures sent.Some? && rest.Batching? ==> r == Err(TypeError) && rest.batched.batch == old(rest.batched.batch) + [Commands.Batch(sent.value, old(rest.batched.counter))]
    {
      var typeName := IndexTypeName(t);
      if typeName.Err? {
        return None, Ok(None), Err(typeName.error);
      }
      var cmd := Commands.GetIndices(typeName.value);
      sent := Some(cmd);
      listed := Dispatch(cmd, ContentDict, reply, Unmapped);
      if listed.Err? {
        return sent, listed, Err(listed.error);
      }
      if listed.value.None? {
        return sent, listed, Err(AttributeError);
      }
      var c := GetAsContent(listed.value.value, name, IndexContent);
      if c.Err? && c.error.KeyError? {
        return sent, listed, Err(NotFound(MissingIndex));
      }
      r := c;
    }

    /**
     * `index_get_create(name, element_type, config)`: the existing index, or, after any
     * failure of the lookup, a newly created one. With the atomic executor the index is
     * created exactly when the listing does not hold it; inside a batch the listing is
     * still pending, so both commands are queued.
     */
    method IndexGetCreate(name: string, t: ElementType, config: map<string, Value>, getReply: Reply, createReply: Reply)
      returns (getSent: Option<Commands.Command>, listed: Result<Option<Future>>, createSent: Option<Commands.Command>,
               r: Result<Option<Future>>)
      requires Valid()
      modifies Running()
      ensures Valid()
      ensures t == OtherType ==> r == Err(TypeError) && getSent.None? && createSent.None? && Untouched()
      ensures t != OtherType ==> getSent == Some(Commands.GetIndices(IndexTypeName(t).value))
      ensures t != OtherType && rest.Atomic? ==>
        var found := getReply.Replied? && Record(getReply.body, name).Ok?;
        (found ==>
          createSent.None? && r.Ok? && r.value.Some? && fresh(r.value.value) && r.value.value.cls == IndexContent &&
          r.value.value.response == Record(getReply.body, name).value) &&
        (!found ==>
          createSent == Some(if t == VertexType then Commands.CreateNodeIndex(name, config) else Commands.CreateRelationshipIndex(name, config)) &&
          Dispatched(createSent.value, IndexContent, createReply, Unmapped, r))
      ensures rest.Batching? && t != OtherType ==>
        r.Ok? && r.value.Some? && r.value.value.cls == IndexContent && !r.value.value.Ready() &&
        rest.batched.batch == old(rest.batched.batch) + [
          Commands.Batch(Commands.GetIndices(IndexTypeName(t).value), old(rest.batched.counter)),
          Commands.Batch(if t == VertexType then Commands.CreateNodeIndex(name, config) else Commands.CreateRelationshipIndex(name, config),
                         old(rest.batched.counter) + 1)]
      ensures rest.Batching? && t != OtherType ==>
        listed.Ok? && listed.value.Some? && r.Ok? && r.value.Some? &&
        fresh(listed.value.value) && fresh(r.value.value) &&
        listed.value.value.cid == Some(old(rest.batched.counter)) && r.value.value.cid == Some(old(rest.batched.counter) + 1) &&
        rest.batched.counter == old(rest.batched.counter) + 2 &&
        rest.batched.futures == old(rest.batched.futures) + [listed.value.value, r.value.value]
    {
      var got;
      getSent, listed, got := IndexGet(name, t, getReply);
      if got.Ok? {
        return getSent, listed, None, Ok(Some(got.value));
      }
      createSent, r := IndexCreate(name, t, config, createReply);
    }

    /**
     * `index_delete(index, element_type)`: `DELETE` the index at the uri of an `Index`
     * object, or at `/index/<type>/<name>`, which needs an element type.
     */
    method IndexDelete(index: IndexRef, t: Option<ElementType>, reply: Reply)
      returns (sent: Option<Commands.Command>, raw: Result<Option<Future>>, o: Outcome)
      requires Valid()
      modifies Running()
      ensures Valid()
      ensures var path := old(IndexPath(index, t, baseUrl));
        (path.Err? ==> o == Fail(path.error) && sent.None? && Untouched()) &&
        (path.Ok? ==> sent == Some(Commands.DeleteIndex(path.value)))
      ensures sent.Some? ==> Dispatched(sent.value, PlainContent, reply, Unmapped, raw)
      ensures sent.Some? ==> (o == Pass <==> raw.Ok?) && (raw.Err? ==> o == Fail(raw.error))
      ensures sent.Some? && rest.Atomic? && reply.HttpError? ==> o == Fail(RestError(reply.status))
      ensures sent.Some? && (rest.Batching? || reply.Replied?) ==> o == Pass
    {
      var path := IndexPath(index, t, baseUrl);
      if path.Err? {
        return None, Ok(None), Fail(path.error);
      }
      var cmd := Commands.DeleteIndex(path.value);
      sent := Some(cmd);
      raw := Dispatch(cmd, PlainContent, reply, Unmapped);
      o := if raw.Err? then Fail(raw.error) else Pass;
    }

    /**
     * `index_put(index, element, key, value)`: an element of the index's kind is indexed
     * under key and value by its own (absolute) uri. An element of the other kind is a
     * TypeError before any command is built.
     */
    method IndexPut<E(==)>(index: IndexHandle, element: Element<E>, key: string, value: string, reply: Reply)
      returns (sent: Option<Commands.Command>, raw: Result<Option<Future>>, o: Outcome)
      requires Valid()
      modifies Running()
      ensures Valid()
      ensures var c := old(IndexPutCommand(index, element, key, value, baseUrl));
        (c.Err? ==> o == Fail(c.error) && sent.None? && Untouched()) &&
        (c.Ok? ==> sent == Some(c.value))
      ensures sent.Some? ==> Dispatched(sent.value, PlainContent, reply, Unmapped, raw)
      ensures sent.Some? ==> (o == Pass <==> raw.Ok?) && (raw.Err? ==> o == Fail(raw.error))
      ensures sent.Some? && rest.Atomic? && reply.HttpError? ==> o == Fail(RestError(reply.status))
      ensures sent.Some? && (rest.Batching? || reply.Replied?) ==> o == Pass
    {
      var c := IndexPutCommand(index, element, key, value, baseUrl);
      if c.Err? {
        return None, Ok(None), Fail(c.error);
      }
      sent := Some(c.value);
      raw := Dispatch(c.value, PlainContent, reply, Unmapped);
      o := if raw.Err? then Fail(raw.error) else Pass;
    }

    /** `index_lookup(index, key, value)`: the elements indexed under key and value, of the index's kind. */
    method IndexLookup(index: IndexHandle, key: string, value: string, reply: Reply)
      returns (sent: Option<Commands.Command>, raw: Result<Option<Future>>, r: Result<ListIter<Neo4jRestEngine>>)
      requires Valid()
      modifies Running()
      ensures Valid()
      ensures var u := old(RelativeUri(index.content, baseUrl));
        (u.Err? ==> r == Err(u.error) && sent.None? && Untouched()) &&
        (u.Ok? ==> sent == Some(Commands.IndexLookup(u.value, key, value)))
      ensures sent.Some? ==> Dispatched(sent.value, ContentList, reply, Unmapped, raw)
      ensures r.Ok? ==> raw == Ok(Some(r.value.lst))
      ensures sent.Some? && rest.Atomic? && reply.HttpError? ==> r == Err(RestError(reply.status))
      ensures sent.Some? && rest.Atomic? && reply.Replied? && reply.body.Null? ==> r == Err(AttributeError)
      ensures r.Ok? ==>
        fresh(r.value) && r.value.engine == this && r.value.kind == index.elementKind &&
        r.value.contentCls == ElementContent && r.value.items.None? && r.value.accept == AcceptAll
    {
      var u := RelativeUri(index.content, baseUrl);
      if u.Err? {
        return None, Ok(None), Err(u.error);
      }
      var cmd := Commands.IndexLookup(u.value, key, value);
      sent := Some(cmd);
      raw, r := ListElements(cmd, index.elementKind, reply);
    }
  }
}
