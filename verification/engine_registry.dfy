/**
 * `create_engine(url)`: the URL `name[+option]:rest` picks an engine class from the
 * registry by name and constructs it with the option and the rest of the URL.
 */
module EngineRegistry {
  import opened Values
  import opened Strings

  /** The three groups of the engine URL pattern. */
  datatype EngineUrl = EngineUrl(name: string, option: Option<string>, rest: string)

  /** The length of the longest prefix of `s` made of `[a-zA-Z0-9]`. */
  function AlnumRun(s: string): (n: nat)
    ensures n <= |s|
    ensures forall i :: 0 <= i < n ==> IsAlnum(s[i])
    ensures n < |s| ==> !IsAlnum(s[n])
  {
    if |s| == 0 || !IsAlnum(s[0]) then 0 else 1 + AlnumRun(s[1..])
  }

  /** The length of the prefix of `s` that `.` can match: everything before the first newline. */
  function LineLength(s: string): (n: nat)
    ensures n <= |s|
    ensures forall i :: 0 <= i < n ==> s[i] != '\n'
    ensures n < |s| ==> s[n] == '\n'
  {
    if |s| == 0 || s[0] == '\n' then 0 else 1 + LineLength(s[1..])
  }

  /** The groups a match can produce: a non-empty name and option, and one line of rest. */
  predicate WellFormed(e: EngineUrl) {
    e.name != "" && AllAlnum(e.name) &&
    (e.option.Some? ==> e.option.value != "" && AllAlnum(e.option.value)) &&
    forall i :: 0 <= i < |e.rest| ==> e.rest[i] != '\n'
  }

  /** `+option` when there is an option, nothing otherwise. */
  function OptionPart(option: Option<string>): string {
    if option.Some? then ['+'] + option.value else []
  }


  /** `s[:n]` where `.*` stops: the line `rest` matches. */
  function Line(s: string): (line: string)
    ensures line <= s && (|line| == |s| || s[|line|] == '\n')
    ensures forall i :: 0 <= i < |line| ==> line[i] != '\n'
  {
    s[..LineLength(s)]
  }

  /**
   * The end of the pattern, `:(?P<rest>.*)`, matched at the start of `s` once the name
   * and the option have been matched.
   */
  function AfterColon(name: string, option: Option<string>, s: string): (r: Option<EngineUrl>)
    ensures r.Some? <==> |s| > 0 && s[0] == ':'
    ensures r.Some? ==> r.value == EngineUrl(name, option, Line(s[1..]))
    ensures r.Some? ==>
      var n := 1 + |r.value.rest|;
      [':'] + r.value.rest <= s && (n == |s| || s[n] == '\n')
  {
    if |s| > 0 && s[0] == ':' then
      var rest := Line(s[1..]);
      assert s[..1 + |rest|] == [':'] + rest;
      Some(EngineUrl(name, option, rest))
    else None
  }

  /** The length of the option run after a `+` at the start of `s`, 0 when there is none. */
  function OptionRun(s: string): (m: nat)
    ensures m > 0 ==> 1 + m <= |s| && s[0] == '+' && AllAlnum(s[1..1 + m])
    ensures m > 0 ==> 1 + m == |s| || !IsAlnum(s[1 + m])
  {
    if |s| > 0 && s[0] == '+' then AlnumRun(s[1..]) else 0
  }

  /** What the pattern asks of the text after the name: `+option` if any, `:`, then the rest. */
  function Tail(e: EngineUrl): string {
    OptionPart(e.option) + ([':'] + e.rest)
  }

  /** The text a match covers: `name`, then `+option` when there is one, then `:` and the rest. */
  function Render(e: EngineUrl): (s: string)
    ensures |s| > |e.name|
  {
    e.name + Tail(e)
  }

  /**
   * The pattern after the name, matched at the start of `after`: `+` and an alphanumeric
   * run give the option only when `:` follows them, and otherwise `:` must come at once.
   */
  function ParseAfterName(name: string, after: string): (r: Option<EngineUrl>)
    ensures r.Some? ==> r.value.name == name
    ensures r.Some? ==> r.value.option.Some? ==> r.value.option.value != "" && AllAlnum(r.value.option.value)
    ensures r.Some? ==> forall i :: 0 <= i < |r.value.rest| ==> r.value.rest[i] != '\n'
    ensures r.Some? ==>
      var t := Tail(r.value);
      t <= after && (|t| == |after| || after[|t|] == '\n')
  {
    var m := OptionRun(after);
    var withOption := if m > 0 then AfterColon(name, Some(after[1..1 + m]), after[1 + m..]) else None;
    if withOption.Some? then
      var plus := ['+'] + after[1..1 + m];
      assert after == plus + after[1 + m..];
      PrefixAfter(plus, [':'] + withOption.value.rest, after[1 + m..], after);
      withOption
    else
      AfterColon(name, None, after)
  }

  /**
   * `re.match` of the engine URL pattern against `url`: the name is the longest
   * alphanumeric prefix, and the rest of the pattern must match right after it.
   */
  function ParseEngineUrl(url: string): Option<EngineUrl> {
    var n := AlnumRun(url);
    if n == 0 then None else ParseAfterName(url[..n], url[n..])
  }

  /** The name group is the whole alphanumeric run at the start of `url`, and there is no match without one. */
  lemma ParseEngineUrlName(url: string)
    ensures AlnumRun(url) == 0 ==> ParseEngineUrl(url).None?
    ensures ParseEngineUrl(url).Some? ==>
      ParseEngineUrl(url).value.name != "" && ParseEngineUrl(url).value.name == url[..AlnumRun(url)]
  {
  }

  /**
   * A match is always a well-formed URL rendered at the start of `url`, followed by
   * nothing or by a newline.
   */
  lemma ParseEngineUrlRenders(url: string)
    ensures var r := ParseEngineUrl(url);
      r.Some? ==>
        var s := Render(r.value);
        WellFormed(r.value) && s <= url && (|s| == |url| || url[|s|] == '\n')
  {
    var n := AlnumRun(url);
    if n > 0 {
      var name, after := url[..n], url[n..];
      var r := ParseAfterName(name, after);
      if r.Some? {
        AlnumPrefix(url, n);
        PrefixAfter(name, Tail(r.value), after, url);
      }
    }
  }

  /** The alphanumeric run at the start of `url` is a word of the class, and the rest follows it. */
  lemma AlnumPrefix(url: string, n: nat)
    requires n == AlnumRun(url)
    ensures AllAlnum(url[..n]) && url == url[..n] + url[n..]
  {
  }

  /** Putting the same text before both sides keeps a prefix a prefix, and what follows it. */
  lemma PrefixAfter(p: string, t: string, s: string, full: string)
    requires t <= s && full == p + s
    ensures p + t <= full
    ensures |t| < |s| ==> full[|p| + |t|] == s[|t|]
  {
    assert s == t + s[|t|..];
    assert p + s == (p + t) + s[|t|..];
  }

  /** An alphanumeric word followed by a character outside the class is the whole run. */
  lemma {:induction false} AlnumRunOfWord(w: string, tail: string)
    requires AllAlnum(w)
    requires tail == [] || !IsAlnum(tail[0])
    ensures AlnumRun(w + tail) == |w|
  {
    if w != [] {
      assert (w + tail)[1..] == w[1..] + tail;
      AlnumRunOfWord(w[1..], tail);
    } else {
      assert w + tail == tail;
    }
  }

  /** A line followed by nothing or a newline is what `.*` matches. */
  lemma {:induction false} LineLengthOfLine(line: string, tail: string)
    requires forall i :: 0 <= i < |line| ==> line[i] != '\n'
    requires tail == [] || tail[0] == '\n'
    ensures LineLength(line + tail) == |line|
  {
    if line != [] {
      assert (line + tail)[1..] == line[1..] + tail;
      LineLengthOfLine(line[1..], tail);
    } else {
      assert line + tail == tail;
    }
  }

  /** `.*` on a line followed by nothing or a newline takes exactly the line. */
  lemma LineOfLine(line: string, tail: string)
    requires forall i :: 0 <= i < |line| ==> line[i] != '\n'
    requires tail == [] || tail[0] == '\n'
    ensures Line(line + tail) == line
  {
    LineLengthOfLine(line, tail);
    assert (line + tail)[..|line|] == line;
  }

  /** `:` then a line followed by nothing or a newline gives back that line as the rest. */
  lemma AfterColonOfLine(name: string, option: Option<string>, rest: string, tail: string)
    requires forall i :: 0 <= i < |rest| ==> rest[i] != '\n'
    requires tail == [] || tail[0] == '\n'
    ensures AfterColon(name, option, [':'] + rest + tail) == Some(EngineUrl(name, option, rest))
  {
    var s := [':'] + rest + tail;
    assert s[1..] == rest + tail;
    LineOfLine(rest, tail);
  }

  /** `+option:` then a line: the option and the line are matched back exactly. */
  lemma ParseWithOption(name: string, option: string, rest: string, tail: string)
    requires option != "" && AllAlnum(option)
    requires forall i :: 0 <= i < |rest| ==> rest[i] != '\n'
    requires tail == [] || tail[0] == '\n'
    ensures ParseAfterName(name, ['+'] + (option + ([':'] + rest + tail))) == Some(EngineUrl(name, Some(option), rest))
  {
    var colon := [':'] + rest + tail;
    var after := ['+'] + (option + colon);
    assert after[1..] == option + colon;
    AlnumRunOfWord(option, colon);
    assert after[1..1 + |option|] == option;
    assert after[1 + |option|..] == colon;
    AfterColonOfLine(name, Some(option), rest, tail);
  }

  /** After a well-formed name, the rendered option, colon and rest are matched back exactly. */
  lemma ParseAfterNameOfTail(e: EngineUrl, tail: string)
    requires WellFormed(e)
    requires tail == [] || tail[0] == '\n'
    ensures ParseAfterName(e.name, Tail(e) + tail) == Some(e)
  {
    var colon := [':'] + e.rest + tail;
    if e.option.Some? {
      assert Tail(e) + tail == ['+'] + (e.option.value + colon);
      ParseWithOption(e.name, e.option.value, e.rest, tail);
    } else {
      assert Tail(e) + tail == colon;
      AfterColonOfLine(e.name, None, e.rest, tail);
    }
  }

  /**
   * The converse of `ParseEngineUrl`'s contract: every well-formed URL, followed by
   * nothing or by a newline, matches and gives back exactly its groups.
   */
  lemma {:induction false} ParseRender(e: EngineUrl, tail: string)
    requires WellFormed(e)
    requires tail == [] || tail[0] == '\n'
    ensures ParseEngineUrl(Render(e) + tail) == Some(e)
  {
    var url := Render(e) + tail;
    var after := Tail(e) + tail;
    assert url == e.name + after;
    assert after[0] == '+' || after[0] == ':';
    AlnumRunOfWord(e.name, after);
    assert url[..|e.name|] == e.name;
    assert url[|e.name|..] == after;
    ParseAfterNameOfTail(e, tail);
  }

  /** A URL with nothing alphanumeric at its start does not match. */
  lemma NoNameNoMatch(url: string)
    requires url == [] || !IsAlnum(url[0])
    ensures ParseEngineUrl(url).None?
  {
  }

  /** What `create_engine` does with the matched groups: this engine class, called with these arguments. */
  datatype Construction<F> = Construction(engineClass: F, option: Option<string>, rest: string)

  /**
   * `create_engine(url)` over a registry from engine names to engine classes: a URL that
   * does not match fails on `None.group` (AttributeError), an unknown name is a KeyError.
   */
  function CreateEngine<F>(url: string, registry: map<string, F>): (r: Result<Construction<F>>)
    ensures ParseEngineUrl(url).None? ==> r == Err(AttributeError)
    ensures ParseEngineUrl(url).Some? && ParseEngineUrl(url).value.name !in registry ==>
      r == Err(KeyError(ParseEngineUrl(url).value.name))
    ensures r.Ok? <==> ParseEngineUrl(url).Some? && ParseEngineUrl(url).value.name in registry
    ensures r.Ok? ==>
      var e := ParseEngineUrl(url).value;
      r.value == Construction(registry[e.name], e.option, e.rest)
  {
    match ParseEngineUrl(url)
    case None => Err(AttributeError)
    case Some(e) =>
      if e.name in registry then Ok(Construction(registry[e.name], e.option, e.rest))
      else Err(KeyError(e.name))
  }

  /**
   * A URL `name+option:rest` with a registered name constructs that engine class with the
   * option and the rest, so the `option:rest` part of the URL is passed through unchanged.
   */
  lemma OptionUrl<F>(name: string, option: string, rest: string, registry: map<string, F>)
    requires name != "" && AllAlnum(name) && option != "" && AllAlnum(option)
    requires forall i :: 0 <= i < |rest| ==> rest[i] != '\n'
    requires name in registry
    ensures var url := name + "+" + option + ":" + rest;
      var c := CreateEngine(url, registry);
      c == Ok(Construction(registry[name], Some(option), rest)) &&
      PyStr(c.value.option) + ":" + c.value.rest == url[|name| + 1..]
  {
    var e := EngineUrl(name, Some(option), rest);
    RenderWithOption(name, option, rest);
    ParseRender(e, []);
  }

  /** `name+option:rest` is the rendering of its groups, and `option:rest` follows `name+`. */
  lemma RenderWithOption(name: string, option: string, rest: string)
    ensures var url := name + "+" + option + ":" + rest;
      url == Render(EngineUrl(name, Some(option), rest)) + [] && url[|name| + 1..] == option + ":" + rest
  {
    var url := name + "+" + option + ":" + rest;
    var e := EngineUrl(name, Some(option), rest);
    assert Tail(e) == "+" + option + ":" + rest;
    assert url == Render(e);
    assert Render(e) + [] == Render(e);
  }

  /**
   * A Neo4j URL `neo4j+scheme:rest` constructs the registered Neo4j class with option
   * `scheme` and the rest, so the engine's base URL `option:rest/` is the URL after
   * `neo4j+`, with a trailing slash.
   */
  lemma Neo4jUrl<F>(scheme: string, rest: string, registry: map<string, F>)
    requires scheme != "" && AllAlnum(scheme)
    requires forall i :: 0 <= i < |rest| ==> rest[i] != '\n'
    requires "neo4j" in registry
    ensures var url := "neo4j+" + scheme + ":" + rest;
      var c := CreateEngine(url, registry);
      c == Ok(Construction(registry["neo4j"], Some(scheme), rest)) &&
      PyStr(c.value.option) + ":" + c.value.rest + "/" == url[6..] + "/"
  {
    var name := "neo4j";
    assert AllAlnum(name);
    OptionUrl(name, scheme, rest, registry);
    assert "neo4j+" + scheme == name + "+" + scheme;
  }
}
