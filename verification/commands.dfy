/**
 * The REST commands of the Neo4j driver: a verb, a resource path and a body,
 * the batched form that also carries its position in a batch, the JSON envelope
 * a batch sends, and the factory that builds each command from domain intent.
 */
module Commands {
  import opened Values
  import opened Strings

  /** `Neo4jCommand`, and `Neo4jBatchedCommand`, which adds the batch job id. */
  datatype Command =
    | Command(verb: string, resource: string, params: Value)
    | Batched(verb: string, resource: string, params: Value, id: int)

  /**
   * `re.match(r"{[0-9]+}", s)`: the string starts with a forward reference to the
   * result of an earlier job of the same batch.
   */
  predicate StartsWithForwardRef(s: string) {
    |s| >= 3 && s[0] == '{' && IsDigit(s[1]) &&
    exists k {:trigger s[k]} :: 1 < k < |s| && s[k] == '}' && AllDigits(s[1..k])
  }

  /** The token `"{n}"` that stands for the result of job `n` of a batch. */
  function ForwardRef(cid: int): (s: string)
    ensures cid >= 0 ==> StartsWithForwardRef(s)
  {
    var digits := IntToString(cid);
    var s := "{" + digits + "}";
    assert s[1..|digits| + 1] == digits;
    assert s[|digits| + 1] == '}';
    s
  }

  /**
   * `Neo4jBatchedCommand(cmd, id)`: both branches of the forward-reference test keep the
   * resource as it is, so batching only adds the id.
   */
  function Batch(cmd: Command, id: int): (b: Command)
    ensures b.Batched? && b.id == id
    ensures b.verb == cmd.verb && b.resource == cmd.resource && b.params == cmd.params
  {
    var resource := if StartsWithForwardRef(cmd.resource) then cmd.resource else cmd.resource;
    Batched(cmd.verb, resource, cmd.params, id)
  }

  /**
   * `JSONCommandEncoder.default`: a batched command becomes the job envelope
   * `{method, to, body, id}`; a plain command is sent as its body alone.
   */
  function Encode(c: Command): (v: Value)
    ensures c.Command? ==> v == c.params
    ensures c.Batched? ==> v.Dict? && v.fields.Keys == {"method", "to", "body", "id"}
    ensures c.Batched? ==>
      Item(v, "method") == Ok(Str(c.verb)) && Item(v, "to") == Ok(Str(c.resource)) &&
      Item(v, "body") == Ok(c.params) && Item(v, "id") == Ok(Int(c.id))
  {
    match c
    case Command(_, _, params) => params
    case Batched(verb, resource, params, id) =>
      Dict(map["method" := Str(verb), "to" := Str(resource), "body" := params, "id" := Int(id)])
  }

  /** The envelope of a batched command keeps everything the command says. */
  lemma EncodeBatchKeepsCommand(cmd: Command, id: int)
    ensures Encode(Batch(cmd, id)) ==
      Dict(map["method" := Str(cmd.verb), "to" := Str(cmd.resource), "body" := cmd.params, "id" := Int(id)])
  {
  }

  /** `batch()`: the request that carries a whole batch. */
  function BatchRequest(): (c: Command)
    ensures c.Command? && c.verb == "POST" && c.resource == "/batch" && c.params == List([])
  {
    Command("POST", "/batch", List([]))
  }

  /** `create_node(data)`. */
  function CreateNode(data: Value): (c: Command)
    ensures c.Command? && c.verb == "POST" && c.resource == "/node" && c.params == data
  {
    Command("POST", "/node", data)
  }

  /** The path of a node given by id: `"/node/%d"`. */
  function NodePath(id: int): (s: string)
    ensures |s| > 6 && s[..6] == "/node/" && AfterLast(s, '/') == IntToString(id)
  {
    AfterLastOfSuffix("/node", '/', IntToString(id));
    assert "/node/" + IntToString(id) == "/node" + ['/'] + IntToString(id);
    "/node/" + IntToString(id)
  }

  /**
   * An endpoint of a relationship as `kwargs.get('x_uri', '/node/%d' % kwargs.get('x_id', -1))`:
   * the uri when there is one, the node path of the id otherwise.
   */
  function Endpoint(uri: Option<string>, id: Option<int>): (s: string)
    ensures uri.Some? ==> s == uri.value
    ensures uri.None? ==> |s| > 6 && s[..6] == "/node/" && AfterLast(s, '/') == IntToString(id.GetOr(-1))
  {
    match uri
    case Some(u) => u
    case None => NodePath(id.GetOr(-1))
  }

  /**
   * `create_relationship(label, data, **kwargs)`, where an absent keyword is `None` here:
   * both endpoints and a non-empty label are asserted; the command posts `{to, type, data}`
   * to the origin's relationships.
   */
  function CreateRelationship(relType: string, data: Value, fromUri: Option<string>, fromId: Option<int>,
                              toUri: Option<string>, toId: Option<int>): (r: Result<Command>)
    ensures r.Err? <==> (fromUri.None? && fromId.None?) || (toUri.None? && toId.None?) || relType == ""
    ensures r.Err? ==> r.error == AssertionError
    ensures r.Ok? ==> r.value.Command? && r.value.verb == "POST"
    ensures r.Ok? && fromUri.Some? ==> r.value.resource == fromUri.value + "/relationships"
    ensures r.Ok? && fromUri.None? ==> r.value.resource == "/node/" + IntToString(fromId.value) + "/relationships"
    ensures r.Ok? ==> Item(r.value.params, "to") == Ok(Str(if toUri.Some? then toUri.value else "/node/" + IntToString(toId.value)))
    ensures r.Ok? ==> Item(r.value.params, "type") == Ok(Str(relType)) && Item(r.value.params, "data") == Ok(data)
  {
    if fromUri.None? && fromId.None? then Err(AssertionError)
    else if toUri.None? && toId.None? then Err(AssertionError)
    else if relType == "" then Err(AssertionError)
    else
      var resource := Endpoint(fromUri, fromId) + "/relationships";
      var to := Endpoint(toUri, toId);
      Ok(Command("POST", resource, Dict(map["to" := Str(to), "type" := Str(relType), "data" := data])))
  }

  /** The path of an element given by kind and id: `"/%s/%d" % (type, id)`. */
  function ElementPath(kind: Option<string>, id: int): (s: string)
    ensures |s| > 1 && s[0] == '/' && AfterLast(s, '/') == IntToString(id)
  {
    AfterLastOfSuffix("/" + PyStr(kind), '/', IntToString(id));
    assert "/" + PyStr(kind) + "/" + IntToString(id) == "/" + PyStr(kind) + ['/'] + IntToString(id);
    "/" + PyStr(kind) + "/" + IntToString(id)
  }

  /**
   * `get(uri, type, id)`: asserts a uri or both type and id; a non-empty uri is fetched as it
   * is, otherwise the element path is (an empty uri with a missing id fails formatting `%d`).
   */
  function Get(uri: Option<string>, kind: Option<string>, id: Option<int>): (r: Result<Command>)
    ensures uri.None? && (kind.None? || id.None?) ==> r == Err(AssertionError)
    ensures Given(uri) ==> r == Ok(Command("GET", uri.value, Null))
    ensures !Given(uri) && (kind.Some? || uri.Some?) && id.Some? ==>
      r == Ok(Command("GET", ElementPath(kind, id.value), Null))
    ensures uri.Some? && !Given(uri) && id.None? ==> r == Err(TypeError)
    ensures r.Ok? ==> r.value.Command? && r.value.verb == "GET" && r.value.params == Null
  {
    if uri.None? && (kind.None? || id.None?) then Err(AssertionError)
    else if Given(uri) then Ok(Command("GET", uri.value, Null))
    else if id.None? then Err(TypeError)
    else Ok(Command("GET", ElementPath(kind, id.value), Null))
  }

  /**
   * `update(uri, id, type, data)`: `PUT` to the properties of the element given by uri,
   * or else by id and non-empty type; ValueError when neither is given.
   */
  function Update(uri: Option<string>, id: Option<int>, kind: Option<string>, data: Value): (r: Result<Command>)
    ensures r.Err? <==> !Given(uri) && !(id.Some? && Given(kind))
    ensures r.Err? ==> r.error == ValueError
    ensures Given(uri) ==> r == Ok(Command("PUT", uri.value + "/properties", data))
    ensures !Given(uri) && id.Some? && Given(kind) ==>
      r == Ok(Command("PUT", ElementPath(kind, id.value) + "/properties", data))
  {
    if Given(uri) then Ok(Command("PUT", uri.value + "/properties", data))
    else if id.Some? && Given(kind) then Ok(Command("PUT", ElementPath(kind, id.value) + "/properties", data))
    else Err(ValueError)
  }

  /** `delete(uri, id, type)`: like `update`, with `DELETE`, no body and no `/properties`. */
  function Delete(uri: Option<string>, id: Option<int>, kind: Option<string>): (r: Result<Command>)
    ensures r.Err? <==> !Given(uri) && !(id.Some? && Given(kind))
    ensures r.Err? ==> r.error == ValueError
    ensures Given(uri) ==> r == Ok(Command("DELETE", uri.value, Null))
    ensures !Given(uri) && id.Some? && Given(kind) ==> r == Ok(Command("DELETE", ElementPath(kind, id.value), Null))
  {
    if Given(uri) then Ok(Command("DELETE", uri.value, Null))
    else if id.Some? && Given(kind) then Ok(Command("DELETE", ElementPath(kind, id.value), Null))
    else Err(ValueError)
  }

  /**
   * Whenever an element can be addressed, `get`, `update` and `delete` address the same
   * resource: the update goes to its `/properties`, the delete to the resource itself.
   */
  lemma GetUpdateDeleteAgree(uri: Option<string>, id: Option<int>, kind: Option<string>, data: Value)
    requires Given(uri) || (id.Some? && Given(kind))
    ensures Get(uri, kind, id).Ok? && Update(uri, id, kind, data).Ok? && Delete(uri, id, kind).Ok?
    ensures Update(uri, id, kind, data).value.resource == Get(uri, kind, id).value.resource + "/properties"
    ensures Delete(uri, id, kind).value.resource == Get(uri, kind, id).value.resource
  {
  }

  /** The `labels` argument of `node_relationships`: one string, or a tuple of them. */
  datatype Labels = OneLabel(name: string) | LabelTuple(labels: seq<string>)

  function LabelSeq(l: Labels): (r: seq<string>)
    ensures l.OneLabel? ==> r == [l.name]
  {
    match l
    case OneLabel(s) => [s]
    case LabelTuple(ls) => ls
  }

  /**
   * `node_relationships(uri, id, dir, labels)`: asserts a non-empty uri or an id; the
   * resource is `<uri>/relationships/<dir>/<labels joined by &>`.
   */
  function NodeRelationships(uri: Option<string>, id: Option<int>, dir: string, labels: Labels): (r: Result<Command>)
    ensures r.Err? <==> !Given(uri) && id.None?
    ensures r.Err? ==> r.error == AssertionError
    ensures r.Ok? ==> r.value.Command? && r.value.verb == "GET" && r.value.params == Null
    ensures r.Ok? ==>
      r.value.resource == (if Given(uri) then uri.value else NodePath(id.value)) + "/relationships/" + dir + "/" + Join(LabelSeq(labels), '&')
  {
    if !Given(uri) && id.None? then Err(AssertionError)
    else
      var base := if Given(uri) then uri.value else NodePath(id.value);
      Ok(Command("GET", base + "/relationships/" + dir + "/" + Join(LabelSeq(labels), '&'), Null))
  }

  /**
   * The label part of a `node_relationships` resource splits back into the labels given,
   * as long as there is at least one and none contains `&`.
   */
  lemma NodeRelationshipsLabels(uri: Option<string>, id: Option<int>, dir: string, labels: Labels, prefix: string)
    requires Given(uri) || id.Some?
    requires |LabelSeq(labels)| > 0 && forall k :: 0 <= k < |LabelSeq(labels)| ==> '&' !in LabelSeq(labels)[k]
    requires prefix == (if Given(uri) then uri.value else NodePath(id.value)) + "/relationships/" + dir + "/"
    ensures NodeRelationships(uri, id, dir, labels).Ok?
    ensures var res := NodeRelationships(uri, id, dir, labels).value.resource;
      prefix <= res && Split(res[|prefix|..], '&') == LabelSeq(labels)
  {
    var res := NodeRelationships(uri, id, dir, labels).value.resource;
    assert res == prefix + Join(LabelSeq(labels), '&');
    assert res[|prefix|..] == Join(LabelSeq(labels), '&');
    SplitJoin(LabelSeq(labels), '&');
  }

  /**
   * `traversal(start_uri, start_id, return_type, params)`: asserts a start; posts the
   * parameters unchanged to `<start>/traverse/<return_type>`.
   */
  function Traversal(startUri: Option<string>, startId: Option<int>, returnType: string, params: Value): (r: Result<Command>)
    ensures r.Err? <==> !Given(startUri) && startId.None?
    ensures r.Err? ==> r.error == AssertionError
    ensures r.Ok? ==> r.value.Command? && r.value.verb == "POST" && r.value.params == params
    ensures r.Ok? ==>
      r.value.resource == (if Given(startUri) then startUri.value else NodePath(startId.value)) + "/traverse/" + returnType
  {
    if !Given(startUri) && startId.None? then Err(AssertionError)
    else
      var start := if Given(startUri) then startUri.value else NodePath(startId.value);
      Ok(Command("POST", start + "/traverse/" + returnType, params))
  }

  /** The body of an index creation: the name, and the configuration only when there is one. */
  function IndexParams(name: string, config: map<string, Value>): (p: Value)
    ensures p.Dict? && Item(p, "name") == Ok(Str(name))
    ensures "config" in p.fields <==> config != map[]
    ensures config != map[] ==> Item(p, "config") == Ok(Dict(config))
    ensures p.fields.Keys <= {"name", "config"}
  {
    if config != map[] then Dict(map["name" := Str(name), "config" := Dict(config)])
    else Dict(map["name" := Str(name)])
  }

  /** `create_node_index(name, config)`. */
  function CreateNodeIndex(name: string, config: map<string, Value>): (c: Command)
    ensures c.Command? && c.verb == "POST" && c.resource == "/index/node"
    ensures c.params.Dict? && Item(c.params, "name") == Ok(Str(name))
    ensures "config" in c.params.fields <==> config != map[]
  {
    Command("POST", "/index/node", IndexParams(name, config))
  }

  /** `create_relationship_index(name, config)`. */
  function CreateRelationshipIndex(name: string, config: map<string, Value>): (c: Command)
    ensures c.Command? && c.verb == "POST" && c.resource == "/index/relationship"
    ensures c.params.Dict? && Item(c.params, "name") == Ok(Str(name))
    ensures "config" in c.params.fields <==> config != map[]
  {
    Command("POST", "/index/relationship", IndexParams(name, config))
  }

  /** `get_indices(type)`: the listing of all indices of one kind. */
  function GetIndices(kind: string): (c: Command)
    ensures c.Command? && c.verb == "GET" && c.params == Null
    ensures c.resource == "/index/" + kind
  {
    Command("GET", "/index/" + kind, Null)
  }

  /** `delete_index(uri)`. */
  function DeleteIndex(uri: string): (c: Command)
    ensures c.Command? && c.verb == "DELETE" && c.resource == uri && c.params == Null
  {
    Command("DELETE", uri, Null)
  }

  /** `index_element(index_uri, element_uri, key, value)`: posts `{key, value, uri}` to the index. */
  function IndexElement(indexUri: string, elementUri: string, key: string, value: string): (c: Command)
    ensures c.Command? && c.verb == "POST" && c.resource == indexUri
    ensures c.params.Dict? && c.params.fields.Keys == {"key", "value", "uri"}
    ensures Item(c.params, "key") == Ok(Str(key)) && Item(c.params, "value") == Ok(Str(value))
    ensures Item(c.params, "uri") == Ok(Str(elementUri))
  {
    Command("POST", indexUri, Dict(map["key" := Str(key), "value" := Str(value), "uri" := Str(elementUri)]))
  }

  /** `index_lookup(index_uri, key, value)`: `GET <index_uri>/<key>/<value>`. */
  function IndexLookup(indexUri: string, key: string, value: string): (c: Command)
    ensures c.Command? && c.verb == "GET" && c.params == Null
    ensures c.resource == indexUri + "/" + key + "/" + value
  {
    Command("GET", indexUri + "/" + key + "/" + value, Null)
  }

  /**
   * A lookup whose key and value contain no `/` can be read back from its resource:
   * the value is the last segment and the key the one before it.
   */
  lemma IndexLookupSegments(indexUri: string, key: string, value: string)
    requires '/' !in key && '/' !in value
    ensures var segs := Split(IndexLookup(indexUri, key, value).resource, '/');
      |segs| >= 3 && segs[|segs| - 1] == value && segs[|segs| - 2] == key
  {
    var res := IndexLookup(indexUri, key, value).resource;
    assert res == (indexUri + ['/'] + key) + ['/'] + value;
    SplitAround(indexUri + ['/'] + key, '/', value);
    SplitAround(indexUri, '/', key);
    SplitWithoutSeparator(key, '/');
    SplitWithoutSeparator(value, '/');
  }
}
