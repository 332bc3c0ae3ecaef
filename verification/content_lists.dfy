/**
 * List and dict contents turned into elements: the `filter_iter` iterators behind
 * `as_elements`, and the keyed lookups `get_as_content` and `get_as_element`.
 */
module ContentLists {
  import opened Values
  import opened Content
  import opened Elements

  /** The default filter of `as_elements`: every record is accepted. */
  function AcceptAll(v: Value): bool {
    true
  }

  /**
   * What one step of `as_elements` over a list yields for a raw record: the record itself
   * (to be wrapped) when the filter accepts it, nothing (`None`) when it does not, and an
   * AssertionError for an accepted `null`, which no content can be built from.
   */
  function Filtered(accept: Value -> bool, n: Value): (r: Result<Option<Value>>)
    ensures r.Ok? && r.value.Some? <==> accept(n) && !n.Null?
    ensures r.Ok? && r.value.Some? ==> r.value.value == n
    ensures r == Ok(None) <==> !accept(n)
    ensures r.Err? ==> r.error == AssertionError
  {
    if !accept(n) then Ok(None)
    else if n.Null? then Err(AssertionError)
    else Ok(Some(n))
  }

  /** With the default filter, every record that is not `null` is yielded. */
  lemma AcceptAllYieldsEveryRecord(n: Value)
    requires !n.Null?
    ensures Filtered(AcceptAll, n) == Ok(Some(n))
  {
  }

  /**
   * `Neo4jContentList.filter_iter`: iterates over the records of a resolved list content,
   * wrapping each accepted record in a new element with a fresh resolved content.
   */
  class ListIter<E(==)> {
    const lst: Future
    const engine: E
    const kind: ElementKind
    const contentCls: ContentClass
    const accept: Value -> bool
    /** The underlying list iterator: `None` until `__iter__` has run. */
    var items: Option<seq<Value>>
    var pos: nat

    ghost predicate Valid()
      reads this
    {
      items.Some? ==> pos <= |items.value|
    }

    /** `as_elements(engine, cls, content_cls, filter)`: builds the iterator, nothing is read yet. */
    constructor (lst: Future, engine: E, kind: ElementKind, contentCls: ContentClass, accept: Value -> bool)
      ensures this.lst == lst && this.engine == engine && this.kind == kind
      ensures this.contentCls == contentCls && this.accept == accept
      ensures items.None? && pos == 0 && Valid()
    {
      this.lst := lst;
      this.engine := engine;
      this.kind := kind;
      this.contentCls := contentCls;
      this.accept := accept;
      items := None;
      pos := 0;
    }

    /**
     * `__iter__`: NotReady while the list is pending; otherwise `iter` of the response
     * fixes the records: the items of a list, the keys of a dict (each once, in no
     * particular order), the one-character strings of a string. A number or a boolean
     * cannot be iterated.
     */
    method Start() returns (o: Outcome)
      modifies this
      ensures !lst.Ready() ==> o == Fail(NotReady) && items == old(items) && pos == old(pos)
      ensures lst.Ready() && (lst.response.Int? || lst.response.Bool?) ==> o == Fail(TypeError) && items == old(items) && pos == old(pos)
      ensures lst.Ready() && lst.response.List? ==> o == Pass && items == Some(lst.response.items) && pos == 0
      ensures lst.Ready() && lst.response.Str? ==> o == Pass && items == Some(Characters(lst.response.s)) && pos == 0
      ensures lst.Ready() && lst.response.Dict? ==>
        o == Pass && items.Some? && pos == 0 && |items.value| == |lst.response.fields.Keys| &&
        forall v :: v in items.value <==> v.Str? && v.s in lst.response.fields
      ensures old(Valid()) ==> Valid()
    {
      if !lst.Ready() {
        return Fail(NotReady);
      }
      match lst.response {
        case List(records) =>
          items := Some(records);
        case Str(s) =>
          items := Some(Characters(s));
        case Dict(f) =>
          var keys := KeyRecords(f.Keys);
          items := Some(keys);
        case _ =>
          return Fail(TypeError);
      }
      pos := 0;
      return Pass;
    }

    /**
     * `next()`: StopIteration after the last record; otherwise the record at the current
     * position is consumed and yields an element, or `None` when the filter rejects it.
     */
    method Next() returns (r: Result<Option<Element<E>>>)
      requires Valid()
      modifies this
      ensures Valid() && items == old(items)
      ensures items.None? ==> r == Err(AttributeError) && pos == old(pos)
      ensures items.Some? && old(pos) == |items.value| ==> r == Err(StopIteration) && pos == old(pos)
      ensures items.Some? && old(pos) < |items.value| ==> pos == old(pos) + 1
      ensures items.Some? && old(pos) < |items.value| ==>
        (r.Err? <==> Filtered(accept, items.value[old(pos)]).Err?) &&
        (r.Err? ==> r.error == AssertionError) &&
        (r == Ok(None) <==> Filtered(accept, items.value[old(pos)]) == Ok(None))
      ensures r.Ok? && r.value.Some? ==>
        items.Some? && old(pos) < |items.value| &&
        Filtered(accept, items.value[old(pos)]) == Ok(Some(r.value.value.content.response)) &&
        fresh(r.value.value.content) && r.value.value.content.cls == contentCls &&
        r.value.value.content.cid.None? && r.value.value.engine == engine && r.value.value.kind == kind
    {
      if items.None? {
        return Err(AttributeError);
      }
      if pos == |items.value| {
        return Err(StopIteration);
      }
      var n := items.value[pos];
      pos := pos + 1;
      var s := Filtered(accept, n);
      if s.Err? {
        return Err(s.error);
      }
      if s.value.None? {
        return Ok(None);
      }
      var c := new Future(contentCls, None, n);
      return Ok(Some(Element(kind, engine, c)));
    }
  }

  /** Iterating over a string: its one-character strings, in order. */
  function Characters(s: string): (r: seq<Value>)
    ensures |r| == |s| && forall i :: 0 <= i < |s| ==> r[i] == Str([s[i]])
  {
    seq(|s|, i requires 0 <= i < |s| => Str([s[i]]))
  }

  /** Iterating over a dict: each of its keys once, in an order the model does not fix. */
  method KeyRecords(keys: set<string>) returns (s: seq<Value>)
    ensures |s| == |keys|
    ensures forall v :: v in s <==> v.Str? && v.s in keys
  {
    s := [];
    var left := keys;
    while left != {}
      invariant left <= keys
      invariant |s| + |left| == |keys|
      invariant forall v :: v in s <==> v.Str? && v.s in keys - left
      decreases |left|
    {
      var k :| k in left;
      s := s + [Str(k)];
      left := left - {k};
    }
  }

  /**
   * `Neo4jContentDict.filter_iter`: iterates over the entries of a resolved dict content,
   * in no particular order, yielding each accepted entry's key with a new element.
   */
  class DictIter<E(==)> {
    const dict: Future
    const engine: E
    const kind: ElementKind
    const contentCls: ContentClass
    const accept: Value -> bool
    /** The entries of the response, fixed by `__iter__`: `None` until then. */
    var entries: Option<map<string, Value>>
    /** The keys not yet visited. */
    var remaining: set<string>

    ghost predicate Valid()
      reads this
    {
      entries.Some? ==> remaining <= entries.value.Keys
    }

    /** `as_elements(engine, cls, content_cls, filter)` on a dict content. */
    constructor (dict: Future, engine: E, kind: ElementKind, contentCls: ContentClass, accept: Value -> bool)
      ensures this.dict == dict && this.engine == engine && this.kind == kind
      ensures this.contentCls == contentCls && this.accept == accept
      ensures entries.None? && remaining == {} && Valid()
    {
      this.dict := dict;
      this.engine := engine;
      this.kind := kind;
      this.contentCls := contentCls;
      this.accept := accept;
      entries := None;
      remaining := {};
    }

    /**
     * `__iter__`: NotReady while the dict is pending; otherwise every key is still to be
     * visited. A response that is not a dict has no `iteritems`.
     */
    method Start() returns (o: Outcome)
      modifies this
      ensures !dict.Ready() ==> o == Fail(NotReady) && entries == old(entries) && remaining == old(remaining)
      ensures dict.Ready() && !dict.response.Dict? ==> o == Fail(AttributeError) && entries == old(entries) && remaining == old(remaining)
      ensures dict.Ready() && dict.response.Dict? ==>
        o == Pass && entries == Some(dict.response.fields) && remaining == dict.response.fields.Keys
      ensures old(Valid()) ==> Valid()
    {
      if !dict.Ready() {
        return Fail(NotReady);
      }
      if !dict.response.Dict? {
        return Fail(AttributeError);
      }
      entries := Some(dict.response.fields);
      remaining := dict.response.fields.Keys;
      return Pass;
    }

    /**
     * `next()`: StopIteration once every key has been visited; otherwise one unvisited key
     * `k` is consumed, and the pair of `k` and its wrapped value is returned when the
     * filter accepts the value, a bare `None` otherwise.
     */
    method Next() returns (k: string, r: Result<Option<(string, Element<E>)>>)
      requires Valid()
      modifies this
      ensures Valid() && entries == old(entries)
      ensures entries.None? ==> r == Err(AttributeError) && remaining == old(remaining)
      ensures entries.Some? && old(remaining) == {} ==> r == Err(StopIteration) && remaining == {}
      ensures entries.Some? && old(remaining) != {} ==>
        k in old(remaining) && remaining == old(remaining) - {k} &&
        (r.Err? <==> Filtered(accept, entries.value[k]).Err?) &&
        (r.Err? ==> r.error == AssertionError) &&
        (r == Ok(None) <==> Filtered(accept, entries.value[k]) == Ok(None))
      ensures r.Ok? && r.value.Some? ==>
        entries.Some? && k in entries.value && r.value.value.0 == k &&
        Filtered(accept, entries.value[k]) == Ok(Some(r.value.value.1.content.response)) &&
        fresh(r.value.value.1.content) && r.value.value.1.content.cls == contentCls &&
        r.value.value.1.content.cid.None? && r.value.value.1.engine == engine && r.value.value.1.kind == kind
    {
      k := "";
      if entries.None? {
        return k, Err(AttributeError);
      }
      if remaining == {} {
        return k, Err(StopIteration);
      }
      k :| k in remaining;
      remaining := remaining - {k};
      var n := entries.value[k];
      var s := Filtered(accept, n);
      if s.Err? {
        return k, Err(s.error);
      }
      if s.value.None? {
        return k, Ok(None);
      }
      var c := new Future(contentCls, None, n);
      return k, Ok(Some((k, Element(kind, engine, c))));
    }
  }

  /**
   * The record `self._response[key]` that `get_as_content` and `get_as_element` wrap:
   * a pending dict has no response to subscript (TypeError), an absent key is a KeyError,
   * and a `null` record cannot become content (AssertionError).
   */
  function Record(response: Value, key: string): (r: Result<Value>)
    ensures r.Ok? <==> response.Dict? && key in response.fields && !response.fields[key].Null?
    ensures r.Ok? ==> r.value == response.fields[key]
    ensures response.Dict? && key !in response.fields ==> r == Err(KeyError(key))
    ensures !response.Dict? ==> r == Err(TypeError)
    ensures response.Dict? && key in response.fields && response.fields[key].Null? ==> r == Err(AssertionError)
  {
    var n :- Item(response, key);
    if n.Null? then Err(AssertionError) else Ok(n)
  }

  /** `get_as_content(key, content_cls)`: the record under `key` as new resolved content. */
  method GetAsContent(d: Future, key: string, contentCls: ContentClass) returns (r: Result<Future>)
    ensures r.Err? <==> Record(d.response, key).Err?
    ensures r.Err? ==> r.error == Record(d.response, key).error
    ensures r.Ok? ==> fresh(r.value) && r.value.cls == contentCls && r.value.cid.None?
    ensures r.Ok? ==> r.value.response == Record(d.response, key).value && r.value.Ready()
  {
    var n := Record(d.response, key);
    if n.Err? {
      return Err(n.error);
    }
    var c := new Future(contentCls, None, n.value);
    return Ok(c);
  }

  /** `get_as_element(key, engine, cls, content_cls)`: the record under `key` as a new element. */
  method GetAsElement<E(==)>(d: Future, key: string, engine: E, kind: ElementKind, contentCls: ContentClass)
    returns (r: Result<Element<E>>)
    ensures r.Err? <==> Record(d.response, key).Err?
    ensures r.Err? ==> r.error == Record(d.response, key).error
    ensures r.Ok? ==> fresh(r.value.content) && r.value.content.cls == contentCls && r.value.content.cid.None?
    ensures r.Ok? ==> r.value.content.response == Record(d.response, key).value
    ensures r.Ok? ==> r.value.engine == engine && r.value.kind == kind
  {
    var c := GetAsContent(d, key, contentCls);
    if c.Err? {
      return Err(c.error);
    }
    return Ok(Element(kind, engine, c.value));
  }
}
