/**
 * The graph elements handed to users: a vertex or an edge wraps the engine it came
 * from and a content future; its properties are the content's `"data"` map.
 */
module Elements {
  import opened Values
  import Strings
  import opened Content

  /** `Vertex` or `Edge`. */
  datatype ElementKind = VertexKind | EdgeKind

  /** An element type an index can be declared for: `Vertex`, `Edge`, or some other class. */
  datatype ElementType = VertexType | EdgeType | OtherType

  /** A `Vertex` or an `Edge`: its engine (compared by identity) and its content. */
  datatype Element<E(==)> = Element(kind: ElementKind, engine: E, content: Future)

  /**
   * An argument where the engine accepts an element or an id: an element, an integer,
   * `None`, or anything else.
   */
  datatype Arg<E(==)> = ElementArg(el: Element<E>) | IntArg(i: int) | NoneArg | OtherArg

  /** `element.id`: the id of its content. */
  function Id<E(==)>(el: Element<E>): (r: Result<int>)
    reads el.content
    ensures r == el.content.Id()
    ensures r.Ok? ==> el.content.cls == ElementContent && el.content.Ready()
  {
    el.content.Id()
  }

  /** `element[key]`: the property `key` of the content's data. */
  function GetItem<E(==)>(el: Element<E>, key: string): (r: Result<Value>)
    reads el.content
    ensures el.content.Data().Err? ==> r == Err(el.content.Data().error)
    ensures el.content.Data().Ok? ==> r == Item(el.content.Data().value, key)
    ensures r.Ok? ==> el.content.Ready()
  {
    var data :- el.content.Data();
    Item(data, key)
  }

  /** `len(element)`: the number of properties. */
  function Len<E(==)>(el: Element<E>): (r: Result<nat>)
    reads el.content
    ensures r.Ok? <==> el.content.Data().Ok? && (el.content.Data().value.Dict? || el.content.Data().value.List? || el.content.Data().value.Str?)
    ensures r.Ok? && el.content.Data().value.Dict? ==> r.value == |el.content.Data().value.fields|
    ensures r.Ok? && el.content.Data().value.List? ==> r.value == |el.content.Data().value.items|
    ensures r.Ok? && el.content.Data().value.Str? ==> r.value == |el.content.Data().value.s|
  {
    var data :- el.content.Data();
    match data
    case Dict(f) => Ok(|f|)
    case List(items) => Ok(|items|)
    case Str(s) => Ok(|s|)
    case _ => Err(TypeError)
  }

  /** `key in element`: whether the property exists. */
  function Contains<E(==)>(el: Element<E>, key: string): (r: Result<bool>)
    reads el.content
    ensures r.Ok? && el.content.Data().Ok? && el.content.Data().value.Dict? ==> (r.value <==> GetItem(el, key).Ok?)
    ensures el.content.Data().Err? ==> r == Err(el.content.Data().error)
    ensures el.content.Data().Ok? && el.content.Data().value.Dict? ==> r == Ok(key in el.content.Data().value.fields)
    ensures el.content.Data().Ok? && el.content.Data().value.List? ==> r == Ok(Str(key) in el.content.Data().value.items)
    ensures el.content.Data().Ok? && el.content.Data().value.Str? ==> r == Ok(Strings.Contains(el.content.Data().value.s, key))
    ensures el.content.Data().Ok? && (el.content.Data().value.Null? || el.content.Data().value.Int? || el.content.Data().value.Bool?) ==>
      r == Err(TypeError)
  {
    var data :- el.content.Data();
    match data
    case Dict(f) => Ok(key in f)
    case List(items) => Ok(Str(key) in items)
    case Str(s) => Ok(Strings.Contains(s, key))
    case _ => Err(TypeError)
  }

  /**
   * `iter(element)`: what the data's own `__iter__` goes through, the property names of a
   * map (in no particular order) or the items of a list; other data has none.
   */
  function Keys<E(==)>(el: Element<E>): (r: Result<Iteration>)
    reads el.content
    ensures el.content.Data().Err? ==> r == Err(el.content.Data().error)
    ensures r.Ok? && r.value.KeysOf? ==> forall k :: k in r.value.keys <==> GetItem(el, k).Ok?
    ensures el.content.Data().Ok? && el.content.Data().value.List? ==> r == Ok(ItemsOf(el.content.Data().value.items))
    ensures el.content.Data().Ok? && !el.content.Data().value.Dict? && !el.content.Data().value.List? ==> r == Err(AttributeError)
  {
    var data :- el.content.Data();
    Iterate(data)
  }

  /**
   * `element[key] = x`: rebinds one property inside the content's data, in place;
   * every other property, and everything else in the response, is kept.
   */
  method SetItem<E(==)>(el: Element<E>, key: string, x: Value) returns (o: Outcome)
    modifies el.content
    ensures old(el.content.Data()).Err? ==> o == Fail(old(el.content.Data()).error) && el.content.response == old(el.content.response)
    ensures o == Pass <==> old(el.content.Data()).Ok? && old(el.content.Data()).value.Dict?
    ensures o == Pass ==>
      el.content.response == Dict(old(el.content.response).fields["data" := Dict(old(el.content.Data()).value.fields[key := x])])
    ensures o == Pass ==> GetItem(el, key) == Ok(x) && forall k :: k != key ==> GetItem(el, k) == old(GetItem(el, k))
    ensures o != Pass ==> el.content.response == old(el.content.response)
  {
    var data := el.content.Data();
    if data.Err? {
      return Fail(data.error);
    }
    if !data.value.Dict? {
      return Fail(TypeError);
    }
    var updated := Dict(data.value.fields[key := x]);
    o := el.content.SetItem("data", updated);
    assert o == Pass;
  }

  /** The other side of `element == other`: an element, or something that is not. */
  datatype Other<E(==)> = AnElement(el: Element<E>) | NotAnElement

  /**
   * `element == other`: the other is an element with the same id, the same engine and
   * equal content. Reading the ids fails for an element that is still pending.
   */
  function Equal<E(==)>(a: Element<E>, other: Other<E>): (r: Result<bool>)
    reads a.content, if other.AnElement? then {other.el.content} else {}
    ensures other.NotAnElement? ==> r == Ok(false)
    ensures other.AnElement? && r == Ok(true) ==>
      Id(a).Ok? && Id(a) == Id(other.el) && a.engine == other.el.engine && Content.Equal(a.content, other.el.content) == Ok(true)
    ensures other.AnElement? && Id(a).Ok? && Id(a) == Id(other.el) && a.engine == other.el.engine ==>
      r == Content.Equal(a.content, other.el.content)
    ensures other.AnElement? && Id(a).Ok? && Id(other.el).Ok? && (Id(a) != Id(other.el) || a.engine != other.el.engine) ==>
      r == Ok(false)
  {
    match other
    case NotAnElement => Ok(false)
    case AnElement(b) =>
      var ia :- Id(a);
      var ib :- Id(b);
      if ia != ib then Ok(false)
      else if a.engine != b.engine then Ok(false)
      else Content.Equal(a.content, b.content)
  }

  /**
   * Two resolved vertices with the same properties but different ids are different,
   * while a vertex fetched again (same id, same engine, same data) equals the original,
   * whatever else their responses hold.
   */
  lemma EqualIsIdEngineAndData<E>(a: Element<E>, b: Element<E>)
    requires a.content.cls == ElementContent && b.content.cls == ElementContent
    requires Id(a).Ok? && Id(b).Ok?
    requires "data" in a.content.response.fields && "data" in b.content.response.fields
    ensures Equal(a, AnElement(b)) == Ok(
      Id(a) == Id(b) && a.engine == b.engine && a.content.response.fields["data"] == b.content.response.fields["data"])
  {
    if Id(a) == Id(b) && a.engine == b.engine {
      ElementEqualityIsDataEquality(a.content, b.content);
    }
  }

  /**
   * `EdgeProxy.create`'s checks before it calls the engine: ValueError for an empty
   * label or a missing endpoint, then TypeError for a label that is not a string.
   */
  function ValidateEdge<E(==)>(outV: Arg<E>, edgeLabel: Value, inV: Arg<E>): (r: Result<string>)
    ensures r.Ok? <==> Truthy(edgeLabel) && edgeLabel.Str? && !inV.NoneArg? && !outV.NoneArg?
    ensures r.Ok? ==> r.value == edgeLabel.s && r.value != ""
    ensures !Truthy(edgeLabel) || inV.NoneArg? || outV.NoneArg? ==> r == Err(ValueError)
    ensures Truthy(edgeLabel) && !inV.NoneArg? && !outV.NoneArg? && !edgeLabel.Str? ==> r == Err(TypeError)
  {
    if !Truthy(edgeLabel) || inV.NoneArg? || outV.NoneArg? then Err(ValueError)
    else if !edgeLabel.Str? then Err(TypeError)
    else Ok(edgeLabel.s)
  }

  /** The traversal methods of `Vertex`. */
  datatype Step = OutE | InE | BothE | OutV | InV | BothV

  /** The direction a step asks the engine for. */
  function Direction(s: Step): (d: string)
    ensures d == "out" <==> s == OutE || s == OutV
    ensures d == "in" <==> s == InE || s == InV
    ensures d == "all" <==> s == BothE || s == BothV
  {
    match s
    case OutE => "out"
    case OutV => "out"
    case InE => "in"
    case InV => "in"
    case BothE => "all"
    case BothV => "all"
  }

  /** Whether a step yields edges (through the node's relationships) rather than vertices (through a traversal). */
  predicate YieldsEdges(s: Step) {
    s == OutE || s == InE || s == BothE
  }
}
