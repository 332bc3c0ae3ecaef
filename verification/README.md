# nuevo: the Neo4j REST driver's batching core, in Dafny

nuevo is a small Python graph-database layer. Its Neo4j driver turns graph operations
(create a vertex, link two vertices, put an element in an index…) into REST commands.
Outside a transaction each command is sent at once. Inside a transaction, commands are
queued in a batch. Each queued command hands back a *future*: a content object that is
still pending and known only by the id of its job in the batch. When the transaction
ends, the batch is posted in one request. The futures are then resolved by position from
the per-job responses, and later jobs can refer to earlier ones through the forward
reference `{id}`.

This project models that core and proves what it promises:

- `Values`, `Strings`, `Urls`: decoded JSON values and the driver's exceptions; the few
  `str` operations the driver uses; and `relative_url` with the parts of `urlparse` and
  `posixpath` it relies on.
- `Commands`: the command factory (`Neo4jRESTCommandFactory`), batched commands and the
  batch envelope `{method, to, body, id}`.
- `Content`: the `Future` class and its content subclasses, as one class tagged with its
  content class. It covers the pending and resolved states, `__materialize__`, the item
  accessors, `uri`, `id`, `data`, equality, and the index template's `format`.
- `ContentLists`: the `filter_iter` iterators behind `as_elements` (as classes whose
  `next` advances a position), and `get_as_content` / `get_as_element`.
- `Elements`: the `Vertex`/`Edge` wrappers: their accessors, `__setitem__`, `__eq__`,
  the validation in `EdgeProxy.create`, and the traversal steps.
- `Rest`: the atomic executor and the batched executor (`Neo4jBatchedREST`). The batched
  executor is a class with a counter and two parallel queues, and it keeps a positional
  invariant. `materialize` is a loop, and `flush` resets the queues.
- `Neo4jEngine`: `Neo4jRESTEngine`, a class with the current executor and the executor
  stack. It models `transaction`, the CRUD and index operations, the mapping of HTTP
  statuses to not-found errors, and the local refresh of properties after an update.
- `EngineRegistry`: `create_engine`'s URL pattern `name[+option]:rest`, parsed exactly as
  `re.match` does, and the registry lookup.

The HTTP transport is not modelled: every operation that would send a request takes the
transport's answer as a parameter (a `Reply` or a `BatchReply`) and returns the request
it would have sent. The engine registry that plugin discovery builds is a `map` parameter.

Three behaviours of the code are easy to misread, and the model keeps them as written:

- `__materialize__` does not guard against a second resolution. A second response
  overwrites the first.
- A batch reply with fewer responses than futures resolves only the leading futures
  (`zip`). The batch is not aborted.
- `as_elements` yields `None` for a record the filter rejects. The record is not skipped.

## Model

| member | source | states |
|---|---|---|
| Strings.RStrip | lib/nuevo/drivers/neo4j/rest.py:29 | `rstrip('/')` keeps a prefix of the string that does not end in the character, and only that character was removed |
| Strings.IntToString | lib/nuevo/drivers/neo4j/commands.py:63 | `%d` of an integer: non-empty, all digits exactly for a non-negative one, and free of `/`, braces and `&`, so a path built from it splits only where intended |
| Strings.ParseInt | lib/nuevo/drivers/neo4j/content.py:79 | `int()` of a string: only a non-empty string parses, and a string of digits parses to its decimal value |
| Strings.Split | lib/nuevo/drivers/neo4j/engine.py:26 | `split` of a path at `/`: at least one part, and no part holds the separator |
| Strings.Join | lib/nuevo/drivers/neo4j/commands.py:96 | `"&".join(parts)` (a function without a contract of its own; `JoinHead`, `JoinSplit` and `SplitJoin` state what it computes) |
| Strings.JoinHead | lib/nuevo/drivers/neo4j/commands.py:96 | `"&".join(parts)` starts with the first part |
| Strings.JoinSplit | lib/nuevo/drivers/neo4j/commands.py:96 | joining the parts of a split rebuilds the string |
| Strings.SplitJoin | lib/nuevo/drivers/neo4j/commands.py:96 | splitting a join of separator-free parts gives the parts back |
| Strings.Contains | lib/nuevo/drivers/neo4j/content.py:68 | `item in response` on a string response: a substring test, characterised by ContainsOccurs |
| Strings.ContainsOccurs | lib/nuevo/drivers/neo4j/content.py:68 | `sub in s` holds exactly when `sub` occurs in `s` at some position |
| Strings.Find | lib/nuevo/drivers/neo4j/content.py:94 | the first position of the character, and none exactly when it does not occur; `format` uses it for the closing brace and the URL split for the scheme's `:` |
| Strings.AfterLast | lib/nuevo/drivers/neo4j/content.py:79 | `rpartition('/')[-1]` is a suffix free of the separator, preceded by the separator unless it is the whole string |
| Strings.ParseIntOfIntToString | lib/nuevo/drivers/neo4j/content.py:77-80 | reading back with `int()` an integer printed with `%d` gives that integer |
| Urls.SplitUrl | lib/nuevo/drivers/neo4j/engine.py:20-21 | a string with no `:`, `?` or `#` that does not start with `//` parses to an empty network location with the whole string as path |
| Urls.DropScheme | lib/nuevo/drivers/neo4j/engine.py:20-21 | what follows the scheme of a URL is a suffix of it, and a URL without `:` has no scheme |
| Urls.NetlocLength | lib/nuevo/drivers/neo4j/engine.py:20-21 | the network location runs up to the first `/`, `?` or `#` |
| Urls.CutQuery | lib/nuevo/drivers/neo4j/engine.py:20-21 | the path is cut before the query and fragment, a prefix free of `?` and `#` |
| Urls.Dirname | lib/nuevo/drivers/neo4j/engine.py:24 | `posixpath.dirname` of a path is a prefix of it |
| Urls.Normalize | lib/nuevo/drivers/neo4j/engine.py:26 | `relpath`'s normalisation leaves no empty, `.` or `..` segment |
| Urls.CommonPrefixLength | lib/nuevo/drivers/neo4j/engine.py:26 | the longest common prefix of two segment lists: equal up to it, different right after it |
| Urls.RelPath | lib/nuevo/drivers/neo4j/engine.py:26 | `posixpath.relpath` is never empty (`.` for the directory itself) |
| Urls.RelativeUrl | lib/nuevo/drivers/neo4j/engine.py:19-26 | fails with ValueError exactly when the network locations differ; otherwise gives a `/`-rooted path |
| Urls.RelPathBelow | lib/nuevo/drivers/neo4j/engine.py:26 | relative to a directory, a path below it made of plain segments is the remaining segments |
| Urls.RelativeUrlUnderBase | lib/nuevo/drivers/neo4j/engine.py:19-26 | a target on the same host, under the base's directory at plain segments `rel`, is addressed as `/rel` |
| Commands.ForwardRef | lib/nuevo/drivers/neo4j/content.py:42 | the token `{cid}` of a non-negative id matches the forward-reference pattern `{[0-9]+}` |
| Commands.Batch | lib/nuevo/drivers/neo4j/commands.py:14-22 | a batched command keeps verb, resource and body (both branches of the forward-reference test agree) and adds the job id |
| Commands.StartsWithForwardRef | lib/nuevo/drivers/neo4j/commands.py:18-21 | a resource that starts with a `{digits}` forward reference; both branches keep the resource, so `Batch` never rewrites it (a predicate, without a contract of its own) |
| Commands.Encode | lib/nuevo/drivers/neo4j/commands.py:24-30 | a plain command encodes as its body; a batched one as the envelope with exactly the keys `method`, `to`, `body`, `id` |
| Commands.EncodeBatchKeepsCommand | lib/nuevo/drivers/neo4j/commands.py:16-28 | the envelope of a batched command carries the original verb, resource, body and the id |
| Commands.BatchRequest | lib/nuevo/drivers/neo4j/commands.py:37-38 | `batch()` is `POST /batch` with an empty list |
| Commands.CreateNode | lib/nuevo/drivers/neo4j/commands.py:42-43 | `POST /node` with the data as body |
| Commands.Endpoint | lib/nuevo/drivers/neo4j/commands.py:51-52 | the uri when given; otherwise `/node/<id>` with `-1` for a missing id, whose last segment is exactly the printed id |
| Commands.CreateRelationship | lib/nuevo/drivers/neo4j/commands.py:46-55 | AssertionError exactly when an endpoint or the label is missing; otherwise a POST to the origin's `/relationships` with `to`, `type` and `data` |
| Commands.ElementPath | lib/nuevo/drivers/neo4j/commands.py:63 | `"/%s/%d" % (type, id)` starts with `/` and its last segment is exactly the digits of the id |
| Commands.NodePath | lib/nuevo/drivers/neo4j/commands.py:93 | `"/node/%d" % id` starts with `/node/` and its last segment is exactly the digits of the id |
| Commands.Get | lib/nuevo/drivers/neo4j/commands.py:58-63 | AssertionError without a uri or a type and id; a non-empty uri is fetched as given, otherwise `/<type>/<id>`; an empty uri without an id fails the `%d` formatting (TypeError) |
| Commands.Update | lib/nuevo/drivers/neo4j/commands.py:66-74 | ValueError exactly when neither a uri nor an id and type is given; PUT to `<uri>/properties` or `/<type>/<id>/properties` |
| Commands.Delete | lib/nuevo/drivers/neo4j/commands.py:77-85 | as `update`, with DELETE, no body and no `/properties` |
| Commands.GetUpdateDeleteAgree | lib/nuevo/drivers/neo4j/commands.py:58-85 | whenever an element can be addressed, update goes to the `/properties` of the resource `get` fetches and delete removes that resource |
| Commands.LabelSeq | lib/nuevo/drivers/neo4j/commands.py:94-95 | a single label string is treated as a one-label tuple |
| Commands.NodeRelationships | lib/nuevo/drivers/neo4j/commands.py:90-98 | AssertionError exactly without uri and id; otherwise GET `<uri or /node/id>/relationships/<dir>/<labels joined by &>` |
| Commands.NodeRelationshipsLabels | lib/nuevo/drivers/neo4j/commands.py:90-98 | the label part of the resource splits back at `&` into exactly the labels passed |
| Commands.Traversal | lib/nuevo/drivers/neo4j/commands.py:101-106 | AssertionError exactly without a start; otherwise POST to `<start>/traverse/<return type>` with the parameters unchanged |
| Commands.IndexParams | lib/nuevo/drivers/neo4j/commands.py:110-121 | an index body always has `name`, and has `config` exactly when the configuration is non-empty |
| Commands.CreateNodeIndex | lib/nuevo/drivers/neo4j/commands.py:110-114 | POST to `/index/node` with that body |
| Commands.CreateRelationshipIndex | lib/nuevo/drivers/neo4j/commands.py:117-121 | POST to `/index/relationship` with that body |
| Commands.GetIndices | lib/nuevo/drivers/neo4j/commands.py:124-125 | GET `/index/<type>` |
| Commands.DeleteIndex | lib/nuevo/drivers/neo4j/commands.py:128-129 | DELETE at the uri given |
| Commands.IndexElement | lib/nuevo/drivers/neo4j/commands.py:132-134 | POST to the index uri with exactly `key`, `value` and the element's `uri` |
| Commands.IndexLookup | lib/nuevo/drivers/neo4j/commands.py:137-138 | GET `<index uri>/<key>/<value>` |
| Commands.IndexLookupSegments | lib/nuevo/drivers/neo4j/commands.py:137-138 | key and value without `/` are the last two segments of the lookup resource |
| Content.Future.constructor | lib/nuevo/drivers/neo4j/content.py:7-10 | requires an id or a response; the future is ready exactly when a response is given |
| Content.Future.Materialize | lib/nuevo/drivers/neo4j/content.py:23-25 | a `None` response is an AssertionError and changes nothing; otherwise the future holds exactly that response and is ready, even if it was resolved before |
| Content.Future.Ready | lib/nuevo/drivers/neo4j/content.py:27-29 | a future is ready exactly when it holds a response (a predicate, without a contract of its own; the constructor and `Materialize` state it) |
| Content.Future.GetItem | lib/nuevo/drivers/neo4j/content.py:51-56 | NotReady while pending; the response's item once resolved; TypeError outside `Neo4jContent` (`_raise_not_ready`, lines 31-33) |
| Content.Future.SetItem | lib/nuevo/drivers/neo4j/content.py:44-49 | NotReady while pending; on a dict response rebinds that key only, every other key reads as before |
| Content.Future.Len | lib/nuevo/drivers/neo4j/content.py:62-64 | NotReady while pending; the number of keys of a dict, items of a list or characters of a string response |
| Content.Future.Contains | lib/nuevo/drivers/neo4j/content.py:66-68 | NotReady while pending; on a dict, true exactly when the item can be read; on a list, membership of the string; on a string, substring membership (`Strings.Contains`); TypeError for a number or a bool |
| Content.Future.Keys | lib/nuevo/drivers/neo4j/content.py:58-60 | TypeError for a content that is not Neo4j content, NotReady while pending; a dict response iterates over exactly the keys that can be read, a list response over its items; any other response has no `__iter__` (AttributeError) |
| Content.Future.Uri | lib/nuevo/drivers/neo4j/content.py:37-42 | a pending element or index is at `{cid}`; a resolved element at `response["self"]`; a resolved index at its formatted template without trailing `/` (`_uri` of elements at lines 72-75, of indices at 91-94) |
| Content.Future.Id | lib/nuevo/drivers/neo4j/content.py:76-80 | NotReady while pending; a `self` that is not a string has no `rpartition` (AttributeError); otherwise the integer after the last `/` of the uri |
| Content.Future.Data | lib/nuevo/drivers/neo4j/content.py:82-84 | an element's `data` is its `"data"` item |
| Values.Truthy | lib/nuevo/core/elements.py:121-124 | Python truthiness of a decoded value: `None`, `False`, zero and empty strings, lists and dicts are false |
| Values.Given | lib/nuevo/drivers/neo4j/commands.py:60 | `if uri:` for an optional string argument, related to Truthy by GivenIsTruthy |
| Values.GivenIsTruthy | lib/nuevo/drivers/neo4j/commands.py:60 | an optional string is given exactly when it is present and truthy |
| Values.PyStr | lib/nuevo/drivers/neo4j/engine.py:290 | `"%s" % x` of an optional string, `None` printing as `None` (the engine's base URL and the element path) |
| Values.Item | lib/nuevo/drivers/neo4j/content.py:51-56 | `response[key]`: a value exactly when the response is a dict holding the key, KeyError for a missing key, TypeError when it is not a dict |
| Values.Assign | lib/nuevo/drivers/neo4j/content.py:44-49 | `response[key] = x`: only a dict can be assigned to, and afterwards it holds exactly its old keys and `key` |
| Values.Iterate | lib/nuevo/drivers/neo4j/content.py:58-60 | `__iter__` of a response: a dict gives exactly the keys that can be read, a list its items, anything else has no `__iter__` (AttributeError) |
| Content.ResponseEq | lib/nuevo/drivers/neo4j/content.py:86-97 | elements compare `"data"`, indices `"template"`, other contents the whole response (the base comparison at lines 12-13) |
| Content.Equal | lib/nuevo/drivers/neo4j/content.py:15-21 | different classes or different states are unequal; two pending futures are equal exactly when their ids are; two resolved ones compare their responses by class |
| Content.EqualSymmetric | lib/nuevo/drivers/neo4j/content.py:15-21 | equality gives the same answer in either order |
| Content.EqualReflexive | lib/nuevo/drivers/neo4j/content.py:15-21 | a future equals itself |
| Content.ElementEqualityIsDataEquality | lib/nuevo/drivers/neo4j/content.py:86-87 | resolved element contents are equal exactly when their `"data"` is, whatever `"self"` says |
| Content.IndexEqualityIsTemplateEquality | lib/nuevo/drivers/neo4j/content.py:96-97 | resolved index contents are equal exactly when their `"template"` is |
| Content.FormatKeyValue | lib/nuevo/drivers/neo4j/content.py:94 | `tpl.format(key="", value="")`, token by token (a function without a contract of its own; `FormatKeyValueShape`, `FormatField`, `FormatKeyValueSuffix` and `IndexUriOfTemplate` state what it computes) |
| Content.Token | lib/nuevo/drivers/neo4j/content.py:94 | a plain character of a template is copied by `format` |
| Content.FormatKeyValueShape | lib/nuevo/drivers/neo4j/content.py:94 | formatting a template with empty key and value never lengthens it, and fails only with ValueError, KeyError or IndexError |
| Content.FormatField | lib/nuevo/drivers/neo4j/content.py:94 | a `{key}` or `{value}` field formats to nothing |
| Content.FormatKeyValueSuffix | lib/nuevo/drivers/neo4j/content.py:94 | `address/{key}/{value}` formats to `address//` |
| Content.IndexUriOfTemplate | lib/nuevo/drivers/neo4j/content.py:91-94 | the uri of an index whose template is `address/{key}/{value}` is that address |
| Content.IdOfSelf | lib/nuevo/drivers/neo4j/content.py:76-80 | an element whose `"self"` ends in `/n` has id `n` |
| Elements.Id | lib/nuevo/core/elements.py:13-15 | an element's id is its content's id |
| Elements.GetItem | lib/nuevo/core/elements.py:23-27 | reads the property from the content's `data` |
| Elements.Len | lib/nuevo/core/elements.py:32-33 | the number of properties of a map `data`, items of a list or characters of a string, and an error for other data |
| Elements.Contains | lib/nuevo/core/elements.py:35-36 | on a map `data`, true exactly when the property can be read; on a list, membership of the string; on a string, substring membership; TypeError for `None`, a number or a bool; the error of reading `data` first |
| Elements.Keys | lib/nuevo/core/elements.py:29-30 | the error of reading the data first; a map iterates over exactly the property names that can be read, a list over its items, and other data has no `__iter__` (AttributeError) |
| Elements.SetItem | lib/nuevo/core/elements.py:17-21 | writes only that property of `data`: it reads back as written and every other property as before |
| Elements.Equal | lib/nuevo/core/elements.py:38-42 | a non-element is unequal; otherwise equal exactly when ids, engines and contents are equal |
| Elements.EqualIsIdEngineAndData | lib/nuevo/core/elements.py:38-42 | two resolved elements are equal exactly when id, engine and data agree: same properties with different ids differ, and a re-fetched element equals the original |
| Elements.ValidateEdge | lib/nuevo/core/elements.py:121-124 | ValueError for an empty label or a missing endpoint, then TypeError for a label that is not a string; otherwise the label |
| Elements.Direction | lib/nuevo/core/elements.py:50-72 | `outE`/`outV` ask for `out`, `inE`/`inV` for `in`, `bothE`/`bothV` for `all` |
| ContentLists.Filtered | lib/nuevo/drivers/neo4j/content.py:121-125 | a rejected record yields `None`, an accepted one is wrapped, an accepted `null` is an AssertionError |
| ContentLists.AcceptAll | lib/nuevo/drivers/neo4j/content.py:127 | the default filter `lambda x: True` (a constant function; `AcceptAllYieldsEveryRecord` states what it means for iteration) |
| ContentLists.AcceptAllYieldsEveryRecord | lib/nuevo/drivers/neo4j/content.py:127 | the default filter yields every record |
| ContentLists.ListIter.constructor | lib/nuevo/drivers/neo4j/content.py:109-114 | `as_elements` keeps its arguments and reads nothing yet (built by `as_elements`, lines 127-128) |
| ContentLists.ListIter.Start | lib/nuevo/drivers/neo4j/content.py:116-119 | NotReady while the list is pending; otherwise `iter` fixes the records from the start: the items of a list, each key of a dict once, the one-character strings of a string; a number or a boolean is a TypeError |
| ContentLists.KeyRecords | lib/nuevo/drivers/neo4j/content.py:118 | `iter` over a dict gives each key exactly once |
| ContentLists.Characters | lib/nuevo/drivers/neo4j/content.py:118 | `iter` over a string gives its one-character strings in order |
| ContentLists.ListIter.Next | lib/nuevo/drivers/neo4j/content.py:121-125 | StopIteration after the last record; otherwise consumes the i-th record and yields its wrapper (new resolved content) or `None` |
| ContentLists.DictIter.constructor | lib/nuevo/drivers/neo4j/content.py:140-145 | `as_elements` on a dict keeps its arguments and reads nothing yet (built by `as_elements`, line 166) |
| ContentLists.DictIter.Start | lib/nuevo/drivers/neo4j/content.py:147-150 | NotReady while pending; a response that is not a dict has no `iteritems` (AttributeError); otherwise every key is still to be visited |
| ContentLists.DictIter.Next | lib/nuevo/drivers/neo4j/content.py:152-156 | StopIteration once every key is visited; otherwise one unvisited key is consumed, giving the pair of that key and a fresh wrapper of its value, or a bare `None` when the filter rejects the value |
| ContentLists.Record | lib/nuevo/drivers/neo4j/content.py:158-164 | the record under a key: TypeError on a pending dict, KeyError for an absent key, AssertionError for `null` |
| ContentLists.GetAsContent | lib/nuevo/drivers/neo4j/content.py:162-164 | new resolved content holding the record, or the record's error |
| ContentLists.GetAsElement | lib/nuevo/drivers/neo4j/content.py:158-160 | a new element of the given kind and engine over that content, or the record's error |
| Rest.RequestUrl | lib/nuevo/drivers/neo4j/rest.py:40 | the request URL is the base without trailing `/` followed by the resource (the base stripped at line 29) |
| Rest.RequestUrlIgnoresTrailingSlash | lib/nuevo/drivers/neo4j/rest.py:29 | a base with or without a trailing `/` addresses the same URLs |
| Rest.AtomicRest.constructor | lib/nuevo/drivers/neo4j/rest.py:20-29 | keeps the base URL without trailing `/` |
| Rest.AtomicRest.RequestFor | lib/nuevo/drivers/neo4j/rest.py:39-45 | a command is sent with its verb, to base plus resource, with its encoded body |
| Rest.AtomicRest.Execute | lib/nuevo/drivers/neo4j/rest.py:31-37 | an error status becomes a RESTException with that status; an empty body gives `None`; any other body is new, already resolved content of the class asked for (the exception raised at lines 55-56, defined at 12-16) |
| Rest.Body | lib/nuevo/drivers/neo4j/rest.py:117 | a job's `body`, with the error reading it or materialising a `None` raises |
| Rest.FirstFailure | lib/nuevo/drivers/neo4j/rest.py:115-117 | the number of leading responses that materialise: all of them before it do, the one at it does not |
| Rest.FirstFailureUnique | lib/nuevo/drivers/neo4j/rest.py:115-117 | no other position fits that description |
| Rest.BatchPayload | lib/nuevo/drivers/neo4j/rest.py:94 | the batch body is the list of every queued command's encoding, in order |
| Rest.BatchPayloadIds | lib/nuevo/drivers/neo4j/rest.py:81-94 | under the positional invariant the i-th envelope has id `i` and the i-th command's resource |
| Rest.BatchedRest.constructor | lib/nuevo/drivers/neo4j/rest.py:60-73 | empty queues, counter 0, base URL without trailing `/`, invariant established |
| Rest.BatchedRest.NextCid | lib/nuevo/drivers/neo4j/rest.py:75-79 | returns the counter and advances it by one, queues untouched |
| Rest.BatchedRest.Execute | lib/nuevo/drivers/neo4j/rest.py:81-90 | appends exactly one batched command and one new pending future, both with the old counter as id; keeps the positional invariant |
| Rest.BatchedRest.FlushRequest | lib/nuevo/drivers/neo4j/rest.py:93-97 | the flush posts every queued command, in order, to `/batch` |
| Rest.BatchedRest.Materialize | lib/nuevo/drivers/neo4j/rest.py:115-117 | resolves future i with body i for each position both lists have, up to the first failure, which it reports; every later future is unchanged |
| Rest.BatchedRest.Flush | lib/nuevo/drivers/neo4j/rest.py:92-113 | an error status fails with that status before anything is resolved or reset; otherwise materialises and, on success, resets counter and queues; a failure leaves them as they were |
| Rest.FlushFailureAsWritten | lib/nuevo/drivers/neo4j/rest.py:108-113 | as written, the failure branch never raises a RESTException |
| Rest.FlushFailureLosesStatus | lib/nuevo/drivers/neo4j/rest.py:108-113 | the error as written never carries the batch's status |
| Neo4jEngine.RemoveNone | lib/nuevo/drivers/neo4j/engine.py:295-297 | exactly the entries whose value is not `None`, values unchanged |
| Neo4jEngine.RemoveNoneIdempotent | lib/nuevo/drivers/neo4j/engine.py:295-297 | removing `None`s twice is removing them once; a map without any is kept whole |
| Neo4jEngine.UriIdAsWritten | lib/nuevo/drivers/neo4j/engine.py:327-335 | an element gives its uri relative to the base, an integer itself, anything else TypeError |
| Neo4jEngine.RelativeUri | lib/nuevo/drivers/neo4j/engine.py:330 | a content's uri made relative to the base URL, or the error reading the uri (also at lines 244 and 263) |
| Neo4jEngine.UriIdOf | lib/nuevo/drivers/neo4j/engine.py:327-335 | as written, except that a pending element gives its forward reference; the result names a uri exactly for elements and an id exactly for integers |
| Neo4jEngine.ForwardRefIsBarePath | lib/nuevo/drivers/neo4j/engine.py:20-22 | a forward reference parses as a bare path with no network location |
| Neo4jEngine.ForwardRefRejectedAsWritten | lib/nuevo/drivers/neo4j/engine.py:327-335 | as written a pending element is a ValueError against a base with a host; as intended it gives `{cid}` |
| Neo4jEngine.NotFoundOn404 | lib/nuevo/drivers/neo4j/engine.py:99-103 | 404 is exactly the not-found error for the element; other statuses are re-raised (likewise for edges at lines 176-180, 192-196 and 203-207) |
| Neo4jEngine.CreateEdgeStatus | lib/nuevo/drivers/neo4j/engine.py:164-170 | 404 is exactly a missing origin, 400 exactly a missing destination, others re-raised |
| Neo4jEngine.ElementStatus | lib/nuevo/drivers/neo4j/engine.py:99-103 | the mapping of `get_*`, `update_*` and `delete_*`: 404 is the missing element of that kind, any other status is re-raised |
| Neo4jEngine.Unmapped | lib/nuevo/drivers/neo4j/rest.py:55-56 | an uncaught RESTException keeps its status |
| Neo4jEngine.VertexStatusAsWritten | lib/nuevo/drivers/neo4j/engine.py:115-119 | as written, a 404 for a vertex passed as a wrapper is a TypeError (likewise in `delete_vertex`, lines 126-130) |
| Neo4jEngine.VertexNotFoundLostAsWritten | lib/nuevo/drivers/neo4j/engine.py:115-119 | as written and as intended agree except on a 404 through a wrapper (likewise in `delete_vertex`, lines 126-130) |
| Neo4jEngine.KindName | lib/nuevo/drivers/neo4j/engine.py:109 | vertices are `node`, edges `relationship` (and line 186) |
| Neo4jEngine.IndexTypeName | lib/nuevo/drivers/neo4j/engine.py:222-227 | `node` exactly for vertices, `relationship` exactly for edges, TypeError exactly otherwise |
| Neo4jEngine.VerticesParams | lib/nuevo/drivers/neo4j/engine.py:65-82 | one relationship entry per label, depth 1, and a return filter exactly when no label is given and the direction is `in` or `out` |
| Neo4jEngine.ReturnFilter | lib/nuevo/drivers/neo4j/engine.py:73-78 | a return filter is the map of exactly `language` (`javascript`) and `body` |
| Neo4jEngine.RelationshipSpec | lib/nuevo/drivers/neo4j/engine.py:70 | a relationship entry is the map of exactly `direction` and `type` |
| Neo4jEngine.EndpointUri | lib/nuevo/drivers/neo4j/engine.py:137-145 | the edge's `start`/`end` made relative to the base, a `/`-rooted path; a list or dict there is a TypeError and `None`, a number or a boolean an AttributeError, as `urlparse` raises |
| Neo4jEngine.IndexPath | lib/nuevo/drivers/neo4j/engine.py:242-253 | an index object's relative uri, or `/index/<type>/<name>`; AssertionError without a type, TypeError for another class |
| Neo4jEngine.IndexPutCommand | lib/nuevo/drivers/neo4j/engine.py:260-264 | TypeError first for an element of the other kind; otherwise the element's uri indexed at the index's relative uri |
| Neo4jEngine.Neo4jRestEngine.constructor | lib/nuevo/drivers/neo4j/engine.py:289-293 | base URL `protocol:path/`, an atomic executor, an empty stack |
| Neo4jEngine.Neo4jRestEngine.Dispatch | lib/nuevo/drivers/neo4j/engine.py:93 | the atomic executor answers at once, with an error status mapped by the caller; the batch executor queues the command under the next id and returns a pending future (every `self.rest.execute` of the engine) |
| Neo4jEngine.Neo4jRestEngine.StartBatch | lib/nuevo/drivers/neo4j/engine.py:299-301 | the executor is pushed and a new empty batch executor takes over |
| Neo4jEngine.Neo4jRestEngine.SendBatch | lib/nuevo/drivers/neo4j/engine.py:303-304 | flushes the batch executor, with `Flush`'s outcome; an atomic one has no `flush` |
| Neo4jEngine.Neo4jRestEngine.EndBatch | lib/nuevo/drivers/neo4j/engine.py:306-307 | restores the executor on top of the stack and pops it; IndexError on an empty stack |
| Neo4jEngine.Neo4jRestEngine.TransactionEnter | lib/nuevo/drivers/neo4j/engine.py:313-318 | nests exactly when asked to or when no transaction is open; nesting starts a new batch |
| Neo4jEngine.Neo4jRestEngine.TransactionExit | lib/nuevo/drivers/neo4j/engine.py:319-325 | flushes only when the body completed normally, pops in every case, and propagates the body's error first; after a normal body the batch reply resolves the queued futures up to the first failing job, leaves the rest as they were, and the outcome passes exactly when no job failed; an atomic executor has no `flush` (AttributeError); a non-nested one changes nothing |
| Neo4jEngine.Neo4jRestEngine.Transaction | lib/nuevo/drivers/neo4j/engine.py:312-325 | executor and stack are restored whether the body completed or raised |
| Neo4jEngine.Neo4jRestEngine.CreateVertex | lib/nuevo/drivers/neo4j/engine.py:89-93 | creates a node with the data's non-`None` properties |
| Neo4jEngine.Neo4jRestEngine.GetElement | lib/nuevo/drivers/neo4j/engine.py:95-103 | GET `/<type>/<id>`, a 404 meaning the element is missing (`get_edge` at lines 172-180 likewise) |
| Neo4jEngine.Neo4jRestEngine.PutProperties | lib/nuevo/drivers/neo4j/engine.py:105-111 | PUTs the non-`None` data to the element's properties, with the error of addressing it first and nothing sent then; the executor's answer `raw` is as `Dispatched` states: the atomic executor answers at once, a batch queues the command under the next id with a pending future; the outcome passes exactly when `raw` is an answer, with a 404 as not found (`update_edge` at lines 182-188 likewise) |
| Neo4jEngine.Neo4jRestEngine.UpdateElement | lib/nuevo/drivers/neo4j/engine.py:105-119 | nothing is sent, and the executor is untouched, when addressing fails; the PUT is dispatched as in PutProperties; a failed request is its error and leaves every wrapper alone; a successful one passes for an id, a pending wrapper or a wrapper of the other kind, and for a resolved wrapper of that kind passes exactly when its `data` is a map, after which its response is the old one with `data` replaced by exactly the new properties (`update_edge` at lines 182-196 likewise) |
| Neo4jEngine.Neo4jRestEngine.RefreshData | lib/nuevo/drivers/neo4j/engine.py:112-114 | the content's `data` becomes exactly the new map, every other field kept (and lines 189-191 for edges) |
| Neo4jEngine.Neo4jRestEngine.DeleteElement | lib/nuevo/drivers/neo4j/engine.py:121-130 | DELETE of the element, with the error of addressing it first and nothing sent then; the executor's answer `raw` is as `Dispatched` states: the atomic executor answers at once, a batch queues the command under the next id with a pending future; the outcome passes exactly when `raw` is an answer, a 404 meaning the element is missing (`delete_edge` at lines 198-207 likewise) |
| Neo4jEngine.Neo4jRestEngine.CreateEdge | lib/nuevo/drivers/neo4j/engine.py:152-170 | addresses both endpoints, builds the relationship with the non-`None` data, and maps 404/400 to a missing origin/destination |
| Neo4jEngine.Neo4jRestEngine.EdgeEnd | lib/nuevo/drivers/neo4j/engine.py:137-145 | fetches the vertex at the edge's `start` or `end`, made relative to the engine |
| Neo4jEngine.Neo4jRestEngine.Neighbours | lib/nuevo/drivers/neo4j/engine.py:34-82 | edges through the node's relationships with the labels unchanged, vertices through a depth-1 traversal, nothing sent when addressing fails; the list content is dispatched as `Dispatched` states and wrapped in a lazy iterator of elements of the step's kind |
| Neo4jEngine.Neo4jRestEngine.ListElements | lib/nuevo/drivers/neo4j/engine.py:62-63 | a list request is dispatched as `Dispatched` states; an error answer is passed on, an answer without a body has no `as_elements` (AttributeError), and a list content is wrapped in a fresh iterator over it |
| Neo4jEngine.Neo4jRestEngine.IndexCreate | lib/nuevo/drivers/neo4j/engine.py:211-219 | a node or relationship index by element type, TypeError before anything is sent otherwise |
| Neo4jEngine.Neo4jRestEngine.IndexGet | lib/nuevo/drivers/neo4j/engine.py:221-234 | dispatches the listing of the indices of the type and takes the one named; a missing name is not found; inside a batch the pending list cannot be subscripted |
| Neo4jEngine.Neo4jRestEngine.IndexGetCreate | lib/nuevo/drivers/neo4j/engine.py:236-240 | with the atomic executor, an index the listing holds is returned and nothing more is sent, and otherwise the create command is dispatched and its answer returned; inside a batch the listing is pending, so both commands are queued, and the returned index is the fresh pending future of the create job, under the id after the listing's |
| Neo4jEngine.Neo4jRestEngine.IndexDelete | lib/nuevo/drivers/neo4j/engine.py:242-256 | DELETE at the index's path, or the error of finding it with nothing sent; the executor's answer `raw` is as `Dispatched` states: the atomic executor answers at once, a batch queues the command under the next id with a pending future; the outcome passes exactly when `raw` is an answer |
| Neo4jEngine.Neo4jRestEngine.IndexPut | lib/nuevo/drivers/neo4j/engine.py:260-265 | sends the index-put command, and a TypeError for the wrong kind with nothing sent; the executor's answer `raw` is as `Dispatched` states: the atomic executor answers at once, a batch queues the command under the next id with a pending future; the outcome passes exactly when `raw` is an answer |
| Neo4jEngine.Neo4jRestEngine.IndexLookup | lib/nuevo/drivers/neo4j/engine.py:267-271 | GET of key and value under the index, nothing sent when its uri fails; the list content is dispatched as `Dispatched` states and wrapped in a lazy iterator of elements of the index's kind |
| EngineRegistry.LineLength | lib/nuevo/core/engine.py:24 | the `.*` group stops at the first newline: every character before the length is not a newline, and the one at it is |
| EngineRegistry.AlnumRun | lib/nuevo/core/engine.py:24 | the engine name is the longest alphanumeric prefix |
| EngineRegistry.ParseEngineUrl | lib/nuevo/core/engine.py:24-26 | `re.match` of the engine URL pattern, defined by the longest alphanumeric prefix and `ParseAfterName` (a function without a contract of its own; `ParseEngineUrlName`, `ParseEngineUrlRenders` and `ParseRender` state what it computes) |
| EngineRegistry.ParseEngineUrlName | lib/nuevo/core/engine.py:24 | no match without a leading alphanumeric name; a match's name is non-empty and is exactly that leading run |
| EngineRegistry.AfterColon | lib/nuevo/core/engine.py:24 | `:` must come next, and the rest is everything up to the end of the line |
| EngineRegistry.ParseAfterName | lib/nuevo/core/engine.py:24-26 | an option is a non-empty alphanumeric run after `+`, the rest has no newline, and the match covers the text up to a newline or the end |
| EngineRegistry.ParseEngineUrlRenders | lib/nuevo/core/engine.py:24-26 | a match is well formed and its rendering `name[+option]:rest` is a prefix of the URL ending at a newline or the end |
| EngineRegistry.ParseRender | lib/nuevo/core/engine.py:24-26 | every well-formed URL, alone or before a newline, matches and gives back exactly its groups |
| EngineRegistry.NoNameNoMatch | lib/nuevo/core/engine.py:24 | a URL not starting with an alphanumeric character does not match |
| EngineRegistry.CreateEngine | lib/nuevo/core/engine.py:21-29 | no match is an AttributeError, an unknown name a KeyError; otherwise the registered class called with the option and the rest |
| EngineRegistry.OptionUrl | lib/nuevo/core/engine.py:24-29 | `name+option:rest` with a registered name constructs it with that option and rest |
| EngineRegistry.Neo4jUrl | lib/nuevo/core/engine.py:29 | `neo4j+scheme:rest` constructs the Neo4j engine whose base URL is the URL after `neo4j+`, with a trailing `/` (the base URL built at lib/nuevo/drivers/neo4j/engine.py lines 289-290) |

## Left out

- The HTTP transport (`requests` sessions, `Neo4jAtomicREST.send`, the POST in `flush`) is not modelled: its answer is a parameter, and the request that would be sent is returned.
- JSON encoding and decoding are not modelled: values are the decoded `Value` datatype, and only the envelope shape the encoder produces is modelled.
- Plugin discovery (`get_engines`, `pkg_resources` entry points) and its logging are left out: the registry is a map passed to `CreateEngine`.
- `Engine.query`, `query_cypher` and `Neo4jRESTEngine.__getattr__` are left out. They are dynamic dispatch, and `query_cypher` calls `factory.cypher`, which the command factory does not define.
- `_clear_database_for_testing` and the tests themselves are left out: they need a live server.
- `lib/nuevo/core/sessions.py`, `lib/nuevo/core/graph.py`, `lib/nuevo/core/indices.py`, `lib/nuevo/drivers/neo4j/indices.py` and `lib/nuevo/drivers/neo4j/typesystem.py` are not part of this model. Index objects are the `IndexHandle` datatype, and vertex and edge classes are the `ElementKind` tag.
- The body of a transaction is abstracted to how it ended (`Outcome`). The commands it issues are modelled by the engine operations, one call at a time.
- The JavaScript return-filter bodies of `_get_vertices` are opaque constant strings.
- `get_as_element`'s extra constructor arguments (`elargs`) are not modelled.
- Exception messages are not modelled, only the exception's kind and, for a RESTException, its status.
- Neo4jEngine.Neo4jRestEngine.EdgeEnd: builds the GET command directly from the relative uri, as `get(uri=uri)` does for a non-empty uri; an empty relative uri cannot occur, because `relative_url` always starts with `/`.
- Content.FormatKeyValue: only the replacement fields of `str.format` are modelled (plain text, `{{`, `}}`, named and positional fields); format specs, conversions and attribute or index access inside a field are not.
- Commands.NodeRelationships: the default `labels=None`, which `"&".join` rejects with a TypeError, is not modelled; the engine always passes a tuple.
- Strings.ParseInt: `int()` on a string does not model surrounding whitespace or underscores.
- Content.Equal: decoded values are compared structurally, so `1 == True` and `1 == 1.0`, which Python considers equal, are not equal here, and floating-point values are not modelled.
- Urls.RelativeUrl: `urlparse` is modelled only for its scheme, network location and path; parameters (`;`) are not split off the path, and `relpath` takes the working directory to be `/`.
- Urls.RelativeUrlUnderBase: proves only the case where the target lies under the base's directory; other relative paths (with `..`) are computed but not characterised.
- Rest.BatchedRest.Flush: the failure branch is modelled as intended, failing with the batch's status; the code as written is `Rest.FlushFailureAsWritten` (see Findings).
- Neo4jEngine.Neo4jRestEngine.UpdateElement: a 404 on a vertex is reported as not found for every target; the TypeError that formatting a `None` id causes as written is `Neo4jEngine.VertexStatusAsWritten` (see Findings).
- Neo4jEngine.UriIdOf: a pending element is addressed by its forward reference; as written it is a ValueError, which is `Neo4jEngine.UriIdAsWritten` (see Findings).
- Content.Future.Uri: an element whose `"self"` is not a string is a TypeError here. The code hands such a value back as the uri unchanged, and it fails only where the uri is used (an AttributeError in `rpartition` or `urlparse`). The model takes every resolved element response to hold a string `self`.
- ContentLists.GetAsContent: the record is copied into the new content. The code shares the record's dict with the parent response, so a later in-place write through the new content (`Elements.SetItem`, the refresh after an update) would also change the parent response; the model does not show that change.
- ContentLists.GetAsElement: the record is copied into the element's new content; the sharing with the parent response is not modelled, as for `GetAsContent`.
- ContentLists.ListIter.Next: each yielded element's content holds a copy of its record; the sharing with the list response is not modelled, as for `GetAsContent`.
- ContentLists.DictIter.Next: each yielded element's content holds a copy of its value; the sharing with the dict response is not modelled, as for `GetAsContent`.
- Elements.SetItem: the write changes only the element's own content. When that content was built from a record of a list or dict response, the code's write also shows in that response; the model does not show it.
- Neo4jEngine.Neo4jRestEngine.RefreshData: as for `Elements.SetItem`, the parent response of a content built from a record does not see the refresh.
- Commands.IndexElement: key and value are strings. The code puts any value in the JSON body, so numbers, booleans and other values as key or value are not modelled.
- Commands.IndexLookup: key and value are strings. The code formats any value with `%s`, and that rendering of other values is not modelled.
- Neo4jEngine.IndexPutCommand: key and value are strings, as for `Commands.IndexElement`.
- Neo4jEngine.Neo4jRestEngine.IndexPut: key and value are strings, as for `Commands.IndexElement`.
- Neo4jEngine.Neo4jRestEngine.IndexLookup: key and value are strings, as for `Commands.IndexLookup`.
- Elements.ValidateEdge: strings are one type here. The code's `isinstance(_label, str)` also rejects a `unicode` label, which the model cannot tell from a `str` one.
- Commands.LabelSeq: a single label is recognised by being a string. The code's `isinstance(labels, str)` does not recognise a `unicode` label, which `"&".join` then splits into its characters; the model does not distinguish the two string types.
- Neo4jEngine.Neo4jRestEngine.PutProperties: a 404 through a vertex wrapper is reported as not found, as intended. As written it is the TypeError of `Neo4jEngine.VertexStatusAsWritten` (see Findings). A pending target is addressed through the corrected `Neo4jEngine.UriIdOf`.
- Neo4jEngine.Neo4jRestEngine.DeleteElement: a 404 through a vertex wrapper is reported as not found, as intended. As written it is the TypeError of `Neo4jEngine.VertexStatusAsWritten` (see Findings). A pending target is addressed through the corrected `Neo4jEngine.UriIdOf`.
- Neo4jEngine.Neo4jRestEngine.CreateEdge: a pending endpoint is addressed by its forward reference, through the corrected `Neo4jEngine.UriIdOf`. As written it is the ValueError of `Neo4jEngine.UriIdAsWritten` (see Findings).
- Neo4jEngine.Neo4jRestEngine.Neighbours: a pending vertex is addressed by its forward reference, through the corrected `Neo4jEngine.UriIdOf` (see Findings).
- Neo4jEngine.Neo4jRestEngine.UpdateElement: a pending target is addressed by its forward reference, through the corrected `Neo4jEngine.UriIdOf` (see Findings).
- A `neo4j` URL with no option constructs the engine with protocol `None`, so its base URL starts with `None:`; the model reproduces this through `PyStr`, and no property is stated about such engines.

## Findings

| source | as written | input that shows it | evidently intended | confidence | as-written member | corrected member |
|---|---|---|---|---|---|---|
| lib/nuevo/drivers/neo4j/rest.py:108-113 | when the batch POST fails, the handler reads `.message` or `.exception` from the raw response body, a string, which raises AttributeError | any batch reply with an error status, e.g. 500 | raise a RESTException carrying the status, with nothing resolved or reset | not executed | Rest.FlushFailureLosesStatus | Rest.BatchedRest.Flush |
| lib/nuevo/drivers/neo4j/engine.py:115-119 | the 404 handler of `update_vertex` and `delete_vertex` formats the id with `%d`, and the id is `None` when a vertex wrapper was passed, so a TypeError replaces the not-found error | updating or deleting, through its wrapper, a vertex the server answers 404 for | raise the vertex not-found error, as for an id | not executed | Neo4jEngine.VertexNotFoundLostAsWritten | Neo4jEngine.NotFoundOn404 |
| lib/nuevo/drivers/neo4j/engine.py:327-335 | `_get_uri_id` makes every element's uri relative to the base URL; a pending element's uri `{n}` has no network location, so `relative_url` raises ValueError against the engine's base URL | in a transaction, creating a vertex and then an edge from it (the vertex's content is pending with id 0) on an engine at `http://localhost:7474/db/data` | pass the forward reference `{n}` through, which the batch endpoint resolves | not executed | Neo4jEngine.ForwardRefRejectedAsWritten | Neo4jEngine.UriIdOf |
