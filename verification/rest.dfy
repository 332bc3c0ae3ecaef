/**
 * The two REST executors. The atomic one sends each command at once and wraps the
 * reply; the batched one queues commands with dense job ids and hands out pending
 * futures, which a flush resolves by position from the batch reply.
 */
module Rest {
  import opened Values
  import opened Strings
  import opened Commands
  import opened Content

  /** One HTTP request as the executors would send it: verb, full URL and JSON body. */
  datatype Request = Request(verb: string, url: string, body: Value)

  /**
   * What the transport returns: the decoded body (`Null` for an empty one) or, when the
   * server answers with an error status, that status.
   */
  datatype Reply = Replied(body: Value) | HttpError(status: int)

  /** The reply to a batch POST: the list of per-job responses, or an error status and the raw body. */
  datatype BatchReply = BatchReplied(responses: seq<Value>) | BatchHttpError(status: int, content: string)

  /** The URL of a resource: the base URL without trailing slashes, then the resource. */
  function RequestUrl(baseUrl: string, resource: string): (u: string)
    ensures u == RStrip(baseUrl, '/') + resource
    ensures |u| >= |resource| && u[|u| - |resource|..] == resource
  {
    var u := RStrip(baseUrl, '/') + resource;
    assert u[|u| - |resource|..] == resource;
    u
  }

  /** A base URL given with or without trailing slashes addresses the same resources. */
  lemma RequestUrlIgnoresTrailingSlash(baseUrl: string, resource: string)
    ensures RequestUrl(baseUrl + "/", resource) == RequestUrl(baseUrl, resource)
  {
    var b := baseUrl + "/";
    assert b[..|b| - 1] == baseUrl;
  }

  /** `Neo4jAtomicREST`: every command is one HTTP request. */
  class AtomicRest {
    const baseUrl: string

    /** `Neo4jAtomicREST(base_url)`: keeps the base URL without trailing slashes. */
    constructor (baseUrl: string)
      ensures this.baseUrl == RStrip(baseUrl, '/')
    {
      this.baseUrl := RStrip(baseUrl, '/');
    }

    /** The request `send` makes for a command: its verb, at its resource, with its encoded body. */
    function RequestFor(cmd: Command): (q: Request)
      ensures q.verb == cmd.verb && q.url == baseUrl + cmd.resource && q.body == Encode(cmd)
    {
      Request(cmd.verb, baseUrl + cmd.resource, Encode(cmd))
    }

    /**
     * `execute(cmd, resp_cls)`, given what the transport answered to `RequestFor(cmd)`:
     * an error status becomes a RESTException carrying it, an empty body gives `None`,
     * and any other body is returned as already resolved content of the class asked for.
     */
    method Execute(cmd: Command, cls: ContentClass, reply: Reply) returns (sent: Request, r: Result<Option<Future>>)
      ensures sent == RequestFor(cmd)
      ensures reply.HttpError? ==> r == Err(RestError(reply.status))
      ensures reply.Replied? && reply.body.Null? ==> r == Ok(None)
      ensures reply.Replied? && !reply.body.Null? ==>
        r.Ok? && r.value.Some? && fresh(r.value.value) && r.value.value.cls == cls &&
        r.value.value.cid.None? && r.value.value.response == reply.body && r.value.value.Ready()
    {
      sent := RequestFor(cmd);
      match reply
      case HttpError(status) =>
        r := Err(RestError(status));
      case Replied(body) =>
        if body.Null? {
          r := Ok(None);
        } else {
          var f := new Future(cls, None, body);
          r := Ok(Some(f));
        }
    }
  }

  /** `response['body']` of one job's response, which `__materialize__` insists is not `None`. */
  function Body(response: Value): (r: Result<Value>)
    ensures r.Ok? <==> response.Dict? && "body" in response.fields && !response.fields["body"].Null?
    ensures r.Ok? ==> r.value == response.fields["body"]
    ensures response.Dict? && "body" in response.fields && response.fields["body"].Null? ==> r == Err(AssertionError)
    ensures response.Dict? && "body" !in response.fields ==> r == Err(KeyError("body"))
    ensures !response.Dict? ==> r == Err(TypeError)
  {
    var b :- Item(response, "body");
    if b.Null? then Err(AssertionError) else Ok(b)
  }

  /**
   * How many of the first `n` responses are materialised before one fails: `n` when none
   * fails, otherwise the position of the first that does.
   */
  function FirstFailure(responses: seq<Value>, n: nat): (k: nat)
    requires n <= |responses|
    ensures k <= n
    ensures forall i :: 0 <= i < k ==> Body(responses[i]).Ok?
    ensures k < n ==> Body(responses[k]).Err?
  {
    if n == 0 then 0
    else
      var k := FirstFailure(responses, n - 1);
      if k < n - 1 then k
      else if Body(responses[n - 1]).Ok? then n
      else n - 1
  }

  /** `FirstFailure` names the first failing response: no other position fits its description. */
  lemma FirstFailureUnique(responses: seq<Value>, n: nat, k: nat)
    requires n <= |responses| && k <= n
    requires forall i :: 0 <= i < k ==> Body(responses[i]).Ok?
    requires k < n ==> Body(responses[k]).Err?
    ensures FirstFailure(responses, n) == k
  {
  }

  /** The body of the batch POST: the JSON list of every queued job's envelope, in order. */
  function BatchPayload(batch: seq<Command>): (v: Value)
    ensures v.List? && |v.items| == |batch|
    ensures forall i :: 0 <= i < |batch| ==> v.items[i] == Encode(batch[i])
  {
    List(seq(|batch|, i requires 0 <= i < |batch| => Encode(batch[i])))
  }

  /**
   * In a batch whose jobs are numbered by position, the i-th envelope carries id `i`:
   * that is what a forward reference `{i}` in a later job points at.
   */
  lemma BatchPayloadIds(batch: seq<Command>, i: nat)
    requires forall j :: 0 <= j < |batch| ==> batch[j].Batched? && batch[j].id == j
    requires i < |batch|
    ensures Item(BatchPayload(batch).items[i], "id") == Ok(Int(i))
    ensures Item(BatchPayload(batch).items[i], "to") == Ok(Str(batch[i].resource))
  {
  }

  /** `Neo4jBatchedREST`: commands are queued and answered together by one batch request. */
  class BatchedRest {
    const baseUrl: string
    /** `_cid`: the id the next command will get. */
    var counter: nat
    var batch: seq<Command>
    var futures: seq<Future>

    /**
     * The positional invariant: one future per queued command, the i-th of each carrying
     * id `i`, and the counter equal to the length of the queue.
     */
    ghost predicate Valid()
      reads this
    {
      |batch| == counter && |futures| == counter &&
      (forall i :: 0 <= i < |batch| ==> batch[i].Batched? && batch[i].id == i) &&
      (forall i :: 0 <= i < |futures| ==> futures[i].cid == Some(i))
    }

    /** `Neo4jBatchedREST(base_url)`: an empty queue, counting from 0. */
    constructor (baseUrl: string)
      ensures this.baseUrl == RStrip(baseUrl, '/')
      ensures counter == 0 && batch == [] && futures == []
      ensures Valid()
    {
      this.baseUrl := RStrip(baseUrl, '/');
      counter := 0;
      batch := [];
      futures := [];
    }

    /** `next_cid`: the current counter, which is then advanced by one. */
    method NextCid() returns (cid: nat)
      modifies this
      ensures cid == old(counter) && counter == old(counter) + 1
      ensures batch == old(batch) && futures == old(futures)
    {
      cid := counter;
      counter := counter + 1;
    }

    /**
     * `execute(cmd, resp_cls)`: queues the command under the next id and returns a new
     * pending future with that id. Nothing is sent.
     */
    method Execute(cmd: Command, cls: ContentClass) returns (f: Future)
      requires Valid()
      modifies this
      ensures Valid()
      ensures fresh(f) && f.cls == cls && f.cid == Some(old(counter)) && !f.Ready()
      ensures counter == old(counter) + 1
      ensures batch == old(batch) + [Batch(cmd, old(counter))]
      ensures futures == old(futures) + [f]
    {
      var cid := NextCid();
      var queued := Batch(cmd, cid);
      f := new Future(cls, Some(cid), Null);
      batch := batch + [queued];
      futures := futures + [f];
    }

    /** The request `flush` makes: every queued job, in order, posted to `/batch`. */
    function FlushRequest(): (q: Request)
      reads this
      ensures q.verb == "POST" && q.url == baseUrl + "/batch"
      ensures q.body == BatchPayload(batch)
    {
      Request("POST", baseUrl + "/batch", BatchPayload(batch))
    }

    /**
     * `materialize(responses)`: resolves the i-th future with the body of the i-th
     * response, for every position both lists have. It stops at the first response
     * without a usable body; the futures before it are resolved, the rest untouched.
     */
    method Materialize(responses: seq<Value>) returns (o: Outcome)
      requires Valid()
      modifies futures
      ensures Valid()
      ensures var m := if |futures| < |responses| then |futures| else |responses|;
        var k := FirstFailure(responses, m);
        (forall i :: 0 <= i < k ==> futures[i].response == Body(responses[i]).value) &&
        (forall i :: k <= i < |futures| ==> futures[i].response == old(futures[i].response)) &&
        (o == Pass <==> k == m) &&
        (k < m ==> o == Fail(Body(responses[k]).error))
    {
      var m := if |futures| < |responses| then |futures| else |responses|;
      var i := 0;
      while i < m
        invariant 0 <= i <= m
        invariant forall j :: 0 <= j < i ==> Body(responses[j]).Ok?
        invariant forall j :: 0 <= j < i ==> futures[j].response == Body(responses[j]).value
        invariant forall j :: i <= j < |futures| ==> futures[j].response == old(futures[j].response)
      {
        var body := Body(responses[i]);
        if body.Err? {
          FirstFailureUnique(responses, m, i);
          return Fail(body.error);
        }
        var done := futures[i].Materialize(body.value);
        assert done == Pass;
        i := i + 1;
      }
      FirstFailureUnique(responses, m, m);
      return Pass;
    }

    /**
     * `flush()`, given the transport's reply to `FlushRequest()`. An error status raises
     * before anything is resolved or reset. Otherwise the futures are materialised by
     * position and, if that succeeds, the queue is emptied and the counter restarts at 0.
     * Futures past the end of a short response list stay pending and leave the queue.
     */
    method Flush(reply: BatchReply) returns (sent: Request, o: Outcome)
      requires Valid()
      modifies this, futures
      ensures Valid()
      ensures sent == old(FlushRequest())
      ensures reply.BatchHttpError? ==>
        o == Fail(RestError(reply.status)) &&
        counter == old(counter) && batch == old(batch) && futures == old(futures) &&
        forall i :: 0 <= i < |futures| ==> futures[i].response == old(futures[i].response)
      ensures reply.BatchReplied? ==>
        var rs := reply.responses;
        var m := if |old(futures)| < |rs| then |old(futures)| else |rs|;
        var k := FirstFailure(rs, m);
        (forall i :: 0 <= i < k ==> old(futures)[i].response == Body(rs[i]).value) &&
        (forall i :: k <= i < |old(futures)| ==> old(futures)[i].response == old(futures[i].response)) &&
        (o == Pass <==> k == m) &&
        (k < m ==> o == Fail(Body(rs[k]).error))
      ensures reply.BatchReplied? && o == Pass ==> counter == 0 && batch == [] && futures == []
      ensures o != Pass ==> counter == old(counter) && batch == old(batch) && futures == old(futures)
    {
      sent := FlushRequest();
      match reply
      case BatchHttpError(status, _) =>
        o := Fail(RestError(status));
      case BatchReplied(responses) =>
        o := Materialize(responses);
        if o == Pass {
          counter := 0;
          batch := [];
          futures := [];
        }
    }
  }

  /**
   * The error `flush` raises as written when the batch POST fails: the raw body is a
   * string, and reading `.message` or `.exception` from it is an AttributeError, so the
   * status never reaches the caller.
   */
  function FlushFailureAsWritten(content: string): (e: Error)
    ensures !e.RestError?
  {
    AttributeError
  }

  /** Whatever the failed batch answered, the error as written carries no status. */
  lemma FlushFailureLosesStatus(status: int, content: string)
    ensures FlushFailureAsWritten(content) != RestError(status)
  {
  }
}
