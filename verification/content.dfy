/**
 * The driver's futures: a content object is either pending, known only by the id of
 * its job in a batch, or resolved, holding the decoded response. Element and index
 * contents add a uri, an id and their own notion of equal responses.
 */
module Content {
  import opened Values
  import opened Strings
  import opened Commands

  /**
   * The concrete class of a future: `Neo4jContent`, `Neo4jElementContent`,
   * `Neo4jIndexContent`, `Neo4jContentList` or `Neo4jContentDict`.
   */
  datatype ContentClass = PlainContent | ElementContent | IndexContent | ContentList | ContentDict

  /** The classes derived from `Neo4jContent`, which have the item accessors and `uri`. */
  predicate IsNeo4jContent(cls: ContentClass) {
    cls == PlainContent || cls == ElementContent || cls == IndexContent
  }

  /**
   * `Future` and its subclasses. The class and the job id never change after
   * construction; the response is set by `__materialize__` and written by `__setitem__`.
   */
  class Future {
    const cls: ContentClass
    const cid: Option<int>
    var response: Value

    /** The construction assertion, which nothing afterwards can break. */
    ghost predicate Valid()
      reads this
    {
      cid.Some? || !response.Null?
    }

    /** `ready`: a response has arrived. */
    predicate Ready()
      reads this
    {
      !response.Null?
    }

    /** `Future(cid, response)`: asserts that at least one of the two is given. */
    constructor (cls: ContentClass, cid: Option<int>, response: Value)
      requires cid.Some? || !response.Null?
      ensures this.cls == cls && this.cid == cid && this.response == response
      ensures Valid() && (Ready() <==> !response.Null?)
    {
      this.cls := cls;
      this.cid := cid;
      this.response := response;
    }

    /**
     * `__materialize__(response)`: asserts the response is not `None` and stores it.
     * A future that is already resolved is overwritten.
     */
    method Materialize(r: Value) returns (o: Outcome)
      modifies this
      ensures r.Null? ==> o == Fail(AssertionError) && response == old(response)
      ensures !r.Null? ==> o == Pass && response == r && Ready()
      ensures old(Valid()) ==> Valid()
    {
      if r.Null? {
        return Fail(AssertionError);
      }
      response := r;
      return Pass;
    }

    /** `self[key]`: only for `Neo4jContent`; NotReady while pending; the response's item otherwise. */
    function GetItem(key: string): (r: Result<Value>)
      reads this
      ensures !IsNeo4jContent(cls) ==> r == Err(TypeError)
      ensures IsNeo4jContent(cls) && !Ready() ==> r == Err(NotReady)
      ensures IsNeo4jContent(cls) && Ready() && response.Dict? && key in response.fields ==> r == Ok(response.fields[key])
      ensures r.Ok? ==> Ready() && response.Dict? && key in response.fields
    {
      if !IsNeo4jContent(cls) then Err(TypeError)
      else if !Ready() then Err(NotReady)
      else Item(response, key)
    }

    /**
     * `self[key] = x`: NotReady while pending; on a dict response that one key is rebound
     * and every other key keeps its value.
     */
    method SetItem(key: string, x: Value) returns (o: Outcome)
      modifies this
      ensures !IsNeo4jContent(cls) ==> o == Fail(TypeError) && response == old(response)
      ensures IsNeo4jContent(cls) && !old(Ready()) ==> o == Fail(NotReady) && response == old(response)
      ensures IsNeo4jContent(cls) && old(Ready()) && !old(response).Dict? ==> o == Fail(TypeError) && response == old(response)
      ensures o == Pass <==> IsNeo4jContent(cls) && old(response).Dict?
      ensures o == Pass ==> response == Dict(old(response).fields[key := x])
      ensures o == Pass ==> GetItem(key) == Ok(x) && forall k :: k != key ==> GetItem(k) == old(GetItem(k))
      ensures old(Valid()) ==> Valid()
    {
      if !IsNeo4jContent(cls) {
        return Fail(TypeError);
      }
      if !Ready() {
        return Fail(NotReady);
      }
      if !response.Dict? {
        return Fail(TypeError);
      }
      response := Dict(response.fields[key := x]);
      return Pass;
    }

    /** `len(self)`: NotReady while pending, the size of the response otherwise. */
    function Len(): (r: Result<nat>)
      reads this
      ensures !IsNeo4jContent(cls) ==> r == Err(TypeError)
      ensures IsNeo4jContent(cls) && !Ready() ==> r == Err(NotReady)
      ensures r.Ok? && response.Dict? ==> r.value == |response.fields|
      ensures r.Ok? && response.List? ==> r.value == |response.items|
      ensures r.Ok? && response.Str? ==> r.value == |response.s|
      ensures r.Ok? ==> Ready() && (response.Dict? || response.List? || response.Str?)
    {
      if !IsNeo4jContent(cls) then Err(TypeError)
      else if !Ready() then Err(NotReady)
      else match response
        case Dict(f) => Ok(|f|)
        case List(items) => Ok(|items|)
        case Str(s) => Ok(|s|)
        case _ => Err(TypeError)
    }

    /** `item in self`: NotReady while pending; key, element or substring membership otherwise. */
    function Contains(item: string): (r: Result<bool>)
      reads this
      ensures !IsNeo4jContent(cls) ==> r == Err(TypeError)
      ensures IsNeo4jContent(cls) && !Ready() ==> r == Err(NotReady)
      ensures IsNeo4jContent(cls) && response.Dict? ==> r == Ok(item in response.fields)
      ensures IsNeo4jContent(cls) && response.Dict? ==> (r == Ok(true) <==> GetItem(item).Ok?)
      ensures IsNeo4jContent(cls) && response.List? ==> r == Ok(Str(item) in response.items)
      ensures IsNeo4jContent(cls) && response.Str? ==> r == Ok(Strings.Contains(response.s, item))
      ensures IsNeo4jContent(cls) && (response.Int? || response.Bool?) ==> r == Err(TypeError)
    {
      if !IsNeo4jContent(cls) then Err(TypeError)
      else if !Ready() then Err(NotReady)
      else match response
        case Dict(f) => Ok(item in f)
        case List(items) => Ok(Str(item) in items)
        case Str(s) => Ok(Strings.Contains(s, item))
        case _ => Err(TypeError)
    }

    /**
     * `iter(self)`: what the response's own `__iter__` goes through, the keys of a dict
     * (in no particular order) or the items of a list; other responses have none.
     */
    function Keys(): (r: Result<Iteration>)
      reads this
      ensures !IsNeo4jContent(cls) ==> r == Err(TypeError)
      ensures IsNeo4jContent(cls) && !Ready() ==> r == Err(NotReady)
      ensures r.Ok? && r.value.KeysOf? ==> response.Dict? && forall k :: k in r.value.keys <==> GetItem(k).Ok?
      ensures r.Ok? && r.value.ItemsOf? ==> response.List? && r.value.items == response.items
      ensures IsNeo4jContent(cls) && Ready() && (response.Dict? || response.List?) ==> r.Ok?
      ensures IsNeo4jContent(cls) && Ready() && !response.Dict? && !response.List? ==> r == Err(AttributeError)
    {
      if !IsNeo4jContent(cls) then Err(TypeError)
      else if !Ready() then Err(NotReady)
      else Iterate(response)
    }

    /**
     * `uri`: the address of the content. While pending it is the forward reference
     * `{cid}`; a resolved element is at `response["self"]`; a resolved index at its
     * template with key and value left empty and trailing slashes removed. Contents
     * that are neither have no uri.
     */
    function Uri(): (r: Result<string>)
      reads this
      ensures (cls == ElementContent || cls == IndexContent) && !Ready() && cid.Some? ==> r == Ok(ForwardRef(cid.value))
      ensures cls == ElementContent && Ready() && r.Ok? ==> GetItem("self") == Ok(Str(r.value))
      ensures cls == ElementContent && Ready() && GetItem("self").Ok? && GetItem("self").value.Str? ==> r == Ok(GetItem("self").value.s)
      ensures cls == IndexContent && Ready() && r.Ok? ==>
        GetItem("template").Ok? && GetItem("template").value.Str? && FormatKeyValue(GetItem("template").value.s).Ok? &&
        r.value == RStrip(FormatKeyValue(GetItem("template").value.s).value, '/')
      ensures cls == IndexContent && Ready() && r.Ok? ==> r.value == [] || r.value[|r.value| - 1] != '/'
      ensures !(cls == ElementContent || cls == IndexContent) ==> r == Err(AttributeError)
    {
      if cls == ElementContent || cls == IndexContent then
        if !Ready() then
          if cid.Some? then Ok(ForwardRef(cid.value)) else Err(TypeError)
        else if cls == ElementContent then
          var self_ :- GetItem("self");
          if self_.Str? then Ok(self_.s) else Err(TypeError)
        else
          var tpl :- GetItem("template");
          if tpl.Str? then
            var filled :- FormatKeyValue(tpl.s);
            Ok(RStrip(filled, '/'))
          else Err(AttributeError)
      else Err(AttributeError)
    }

    /**
     * `id` of an element content: the integer after the last `/` of `response["self"]`.
     * A pending element has no id: the NotReady of reading `self` is not caught here.
     */
    function Id(): (r: Result<int>)
      reads this
      ensures cls != ElementContent ==> r == Err(AttributeError)
      ensures cls == ElementContent && !Ready() ==> r == Err(NotReady)
      ensures cls == ElementContent && Ready() && GetItem("self").Ok? && !GetItem("self").value.Str? ==> r == Err(AttributeError)
      ensures r.Ok? ==> Uri().Ok? && ParseInt(AfterLast(Uri().value, '/')) == Some(r.value)
    {
      if cls != ElementContent then Err(AttributeError)
      else if !Ready() then Err(NotReady)
      else
        var self_ :- GetItem("self");
        if !self_.Str? then Err(AttributeError)
        else match ParseInt(AfterLast(self_.s, '/'))
          case Some(n) => Ok(n)
          case None => Err(ValueError)
    }

    /** `data` of an element content: its `"data"` item. */
    function Data(): (r: Result<Value>)
      reads this
      ensures cls != ElementContent ==> r == Err(AttributeError)
      ensures cls == ElementContent ==> r == GetItem("data")
    {
      if cls != ElementContent then Err(AttributeError) else GetItem("data")
    }
  }

  /**
   * The comparison of two resolved responses that `__eq__` uses: element contents compare
   * their `"data"`, index contents their `"template"`, the others the whole response.
   */
  function ResponseEq(cls: ContentClass, r1: Value, r2: Value): (r: Result<bool>)
    ensures cls != ElementContent && cls != IndexContent ==> r == Ok(r1 == r2)
    ensures cls == ElementContent ==> (r.Ok? <==> Item(r1, "data").Ok? && Item(r2, "data").Ok?)
    ensures cls == ElementContent && Item(r1, "data").Ok? && Item(r2, "data").Ok? ==>
      r == Ok(Item(r1, "data").value == Item(r2, "data").value)
    ensures cls == IndexContent ==> (r.Ok? <==> Item(r1, "template").Ok? && Item(r2, "template").Ok?)
    ensures cls == IndexContent && Item(r1, "template").Ok? && Item(r2, "template").Ok? ==>
      r == Ok(Item(r1, "template").value == Item(r2, "template").value)
  {
    if cls == ElementContent then
      var d1 :- Item(r1, "data");
      var d2 :- Item(r2, "data");
      Ok(d1 == d2)
    else if cls == IndexContent then
      var t1 :- Item(r1, "template");
      var t2 :- Item(r2, "template");
      Ok(t1 == t2)
    else Ok(r1 == r2)
  }

  /**
   * `a == b` on futures: same class, and either both pending with the same job id or
   * both resolved with responses equal under their class's comparison.
   */
  function Equal(a: Future, b: Future): (r: Result<bool>)
    reads a, b
    ensures a.cls != b.cls ==> r == Ok(false)
    ensures a.Ready() != b.Ready() ==> r == Ok(false)
    ensures a.cls == b.cls && !a.Ready() && !b.Ready() ==> r == Ok(a.cid == b.cid)
    ensures a.cls == b.cls && a.Ready() && b.Ready() ==> r == ResponseEq(a.cls, a.response, b.response)
  {
    if a.cls != b.cls then Ok(false)
    else if !b.Ready() && !a.Ready() && a.cid == b.cid then Ok(true)
    else if b.Ready() && a.Ready() then ResponseEq(a.cls, a.response, b.response)
    else Ok(false)
  }

  /** Two futures that compare without error compare the same way in either order. */
  lemma EqualSymmetric(a: Future, b: Future)
    requires Equal(a, b).Ok? && Equal(b, a).Ok?
    ensures Equal(a, b) == Equal(b, a)
  {
  }

  /** Every future equals itself, provided its class's comparison can read its response. */
  lemma EqualReflexive(a: Future)
    requires a.Ready() ==> ResponseEq(a.cls, a.response, a.response).Ok?
    ensures Equal(a, a) == Ok(true)
  {
  }

  /** Resolved element contents are equal exactly when their `"data"` is, whatever their `"self"` says. */
  lemma ElementEqualityIsDataEquality(a: Future, b: Future)
    requires a.cls == ElementContent && b.cls == ElementContent && a.Ready() && b.Ready()
    requires a.response.Dict? && b.response.Dict? && "data" in a.response.fields && "data" in b.response.fields
    ensures Equal(a, b) == Ok(a.response.fields["data"] == b.response.fields["data"])
  {
  }

  /** Resolved index contents are equal exactly when their `"template"` is. */
  lemma IndexEqualityIsTemplateEquality(a: Future, b: Future)
    requires a.cls == IndexContent && b.cls == IndexContent && a.Ready() && b.Ready()
    requires a.response.Dict? && b.response.Dict? && "template" in a.response.fields && "template" in b.response.fields
    ensures Equal(a, b) == Ok(a.response.fields["template"] == b.response.fields["template"])
  {
  }

  /** `Ok(p + s)` for a successful result, the error itself otherwise. */
  function Prefixed(p: string, r: Result<string>): Result<string> {
    match r
    case Ok(s) => Ok(p + s)
    case Err(e) => Err(e)
  }

  predicate BraceFree(s: string) {
    '{' !in s && '}' !in s
  }

  /** What the front of a template stands for, and how many characters it takes. */
  datatype Piece = Piece(text: string, len: nat)

  /**
   * The next token of a template for `format(key="", value="")`: a plain character,
   * an escaped `{{` or `}}`, or a replacement field `{name}`; the fields `key` and `value`
   * stand for nothing, any other named field is a KeyError, a positional one an
   * IndexError, and an unmatched brace a ValueError.
   */
  function Token(t: string): (r: Result<Piece>)
    requires t != []
    ensures r.Ok? ==> 0 < r.value.len <= |t|
    ensures t[0] != '{' && t[0] != '}' ==> r == Ok(Piece([t[0]], 1))
  {
    if t[0] == '{' then
      if |t| >= 2 && t[1] == '{' then Ok(Piece("{", 2))
      else match Find(t[1..], '}')
        case None => Err(ValueError)
        case Some(j) =>
          var name := t[1..1 + j];
          if '{' in name then Err(ValueError)
          else if name == "key" || name == "value" then Ok(Piece("", j + 2))
          else if name == [] || AllDigits(name) then Err(IndexError)
          else Err(KeyError(name))
    else if t[0] == '}' then
      if |t| >= 2 && t[1] == '}' then Ok(Piece("}", 2)) else Err(ValueError)
    else Ok(Piece([t[0]], 1))
  }

  /** `t.format(key="", value="")`: the template with every token replaced, or the first token's error. */
  function FormatKeyValue(t: string): (r: Result<string>)
    decreases |t|
  {
    if t == [] then Ok([])
    else
      var p :- Token(t);
      Prefixed(p.text, FormatKeyValue(t[p.len..]))
  }

  /**
   * Formatting with empty key and value never lengthens a template, and the only errors
   * it raises are those of a malformed or foreign replacement field.
   */
  lemma {:induction false} FormatKeyValueShape(t: string)
    ensures FormatKeyValue(t).Ok? ==> |FormatKeyValue(t).value| <= |t|
    ensures FormatKeyValue(t).Err? ==>
      FormatKeyValue(t).error.ValueError? || FormatKeyValue(t).error.KeyError? || FormatKeyValue(t).error.IndexError?
    decreases |t|
  {
    if t != [] && Token(t).Ok? {
      FormatKeyValueShape(t[Token(t).value.len..]);
    }
  }

  /** A plain character is copied and formatting goes on after it. */
  lemma FormatPlainHead(t: string)
    requires t != [] && t[0] != '{' && t[0] != '}'
    ensures FormatKeyValue(t) == Prefixed([t[0]], FormatKeyValue(t[1..]))
  {
    assert Token(t) == Ok(Piece([t[0]], 1));
  }

  /** Text without braces passes through formatting unchanged, in front of whatever follows. */
  lemma {:induction false} FormatBraceFreePrefix(p: string, s: string)
    requires BraceFree(p)
    ensures FormatKeyValue(p + s) == Prefixed(p, FormatKeyValue(s))
  {
    if p == [] {
      assert p + s == s;
      var x := FormatKeyValue(s);
      if x.Ok? {
        assert p + x.value == x.value;
      }
    } else {
      var t := p + s;
      var rest := p[1..];
      var head := [p[0]];
      assert head + rest == p;
      assert t[0] == p[0];
      assert t[1..] == rest + s;
      FormatPlainHead(t);
      assert FormatKeyValue(t) == Prefixed(head, FormatKeyValue(rest + s));
      FormatBraceFreePrefix(rest, s);
      var x := FormatKeyValue(s);
      assert FormatKeyValue(t) == Prefixed(head, Prefixed(rest, x));
      PrefixedTwice(head, rest, x);
    }
  }

  lemma PrefixedTwice(a: string, b: string, r: Result<string>)
    ensures Prefixed(a, Prefixed(b, r)) == Prefixed(a + b, r)
  {
    if r.Ok? {
      assert a + (b + r.value) == (a + b) + r.value;
    }
  }

  /** Where `Find` stops: the first occurrence. */
  lemma FindFirst(s: string, c: char, j: nat)
    requires j < |s| && s[j] == c && c !in s[..j]
    ensures Find(s, c) == Some(j)
  {
    assert s[..j + 1][j] == c;
    assert forall i :: 0 <= i < j ==> s[..j][i] == s[i];
  }

  /** A single `{name}` field for one of the two names given is replaced by nothing. */
  lemma FormatField(name: string, rest: string)
    requires name == "key" || name == "value"
    ensures FormatKeyValue("{" + name + "}" + rest) == FormatKeyValue(rest)
  {
    var t := "{" + name + "}" + rest;
    assert t[1..] == name + "}" + rest;
    FindFirst(t[1..], '}', |name|);
    assert t[1..1 + |name|] == name;
    assert Token(t) == Ok(Piece("", |name| + 2));
    assert t[|name| + 2..] == rest;
    FormatStep(t);
    PrefixedEmpty(FormatKeyValue(rest));
  }

  /** One token is replaced and formatting goes on after it. */
  lemma FormatStep(t: string)
    requires t != [] && Token(t).Ok?
    ensures FormatKeyValue(t) == Prefixed(Token(t).value.text, FormatKeyValue(t[Token(t).value.len..]))
  {
  }

  lemma PrefixedEmpty(r: Result<string>)
    ensures Prefixed([], r) == r
  {
    if r.Ok? {
      assert [] + r.value == r.value;
    }
  }

  /** `{key}/{value}` formats to the one `/` between the two fields. */
  lemma FieldsFormat(slash: string, kn: string, vn: string)
    requires slash == "/" && kn == "key" && vn == "value"
    ensures FormatKeyValue(("{" + kn + "}") + (slash + ("{" + vn + "}"))) == Ok(slash)
  {
    var e := "";
    var vf := "{" + vn + "}";
    FormatField(vn, e);
    assert vf + e == vf;
    assert FormatKeyValue(e) == Ok(e);
    assert FormatKeyValue(vf) == Ok(e);
    FormatBraceFreePrefix(slash, vf);
    PrefixedOk(slash, e);
    assert slash + e == slash;
    var tail := slash + vf;
    assert FormatKeyValue(tail) == Ok(slash);
    FormatField(kn, tail);
  }

  /** The key/value part of an index template formats to two empty segments. */
  lemma FormatKeyValueSuffix(address: string)
    requires BraceFree(address)
    ensures FormatKeyValue(address + "/{key}/{value}") == Ok(address + "//")
  {
    var slash, kn, vn := "/", "key", "value";
    FieldsFormat(slash, kn, vn);
    var fields := ("{" + kn + "}") + (slash + ("{" + vn + "}"));
    var head := address + slash;
    assert BraceFree(head);
    FormatBraceFreePrefix(head, fields);
    PrefixedOk(head, slash);
    TemplateSplit(address, slash, kn, vn);
    assert head + slash == address + "//";
  }

  lemma TemplateSplit(address: string, slash: string, kn: string, vn: string)
    requires slash == "/" && kn == "key" && vn == "value"
    ensures address + "/{key}/{value}" == (address + slash) + (("{" + kn + "}") + (slash + ("{" + vn + "}")))
  {
  }

  lemma PrefixedOk(p: string, s: string)
    ensures Prefixed(p, Ok(s)) == Ok(p + s)
  {
  }

  /**
   * The uri of a resolved index whose template is its address followed by
   * `/{key}/{value}` is that address, as long as the address does not end in `/`.
   */
  lemma IndexUriOfTemplate(c: Future, address: string)
    requires c.cls == IndexContent && c.Ready() && c.response.Dict?
    requires "template" in c.response.fields && c.response.fields["template"] == Str(address + "/{key}/{value}")
    requires BraceFree(address) && address != [] && address[|address| - 1] != '/'
    ensures c.Uri() == Ok(address)
  {
    FormatKeyValueSuffix(address);
    var f := address + "//";
    assert f[..|f| - 1] == address + "/";
    assert (address + "/")[..|address|] == address;
  }

  /** A resolved element whose `"self"` ends in `/` and a printed integer has that integer as its id. */
  lemma IdOfSelf(c: Future, prefix: string, n: int)
    requires c.cls == ElementContent && c.Ready() && c.response.Dict?
    requires "self" in c.response.fields && c.response.fields["self"] == Str(prefix + "/" + IntToString(n))
    ensures c.Id() == Ok(n)
  {
    assert prefix + "/" + IntToString(n) == prefix + ['/'] + IntToString(n);
    AfterLastOfSuffix(prefix, '/', IntToString(n));
    ParseIntOfIntToString(n);
  }
}
