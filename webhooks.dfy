/** Outbound webhooks. `RestTemplate.postForEntity` is modelled as an oracle:
    the template holds the script of replies the remote endpoints will give
    and a log of the requests it has sent. A notification is a fixed,
    ordered list of calls that stops at the first failing one; `FanOut` is
    the reference definition every notification in the services is proved
    against. */
module Webhooks {
  import opened Common

  /** What one `postForEntity` does: a response with its status code, or an
      exception (a RestClientException with its message). `statusText` is
      what the status code renders as in a string concatenation. */
  datatype Reply =
    | Response(status: nat, statusText: string)
    | Thrown(message: Option<string>)

  /** HttpStatusCode.is2xxSuccessful: the 2xx class of RFC 9110, section 15.3. */
  predicate Is2xx(status: nat)
  {
    200 <= status <= 299
  }

  /** The JSON values a payload map holds. */
  datatype Json = JNull | JText(text: string) | JList(items: seq<string>)

  function JsonText(s: Option<string>): Json
  {
    if s.Some? then JText(s.value) else JNull
  }

  function JsonList(s: Option<seq<string>>): Json
  {
    if s.Some? then JList(s.value) else JNull
  }

  /** A `HashMap<String, Object>` payload sent as application/json. */
  type Body = map<string, Json>

  datatype Request = Request(url: string, body: Body)

  /** The reply the next call receives; with no scripted reply left the
      endpoint is unreachable and the call throws. */
  function NextReply(replies: seq<Reply>): Reply
  {
    if replies == [] then Thrown(None) else replies[0]
  }

  /** The reply the call numbered `i` (from 0) receives. */
  function ReplyAt(replies: seq<Reply>, i: nat): Reply
  {
    if i < |replies| then replies[i] else Thrown(None)
  }

  /** The script left after `n` calls. */
  function Drop(replies: seq<Reply>, n: nat): (r: seq<Reply>)
    ensures forall i: nat :: ReplyAt(r, i) == ReplyAt(replies, n + i)
  {
    if n < |replies| then replies[n..] else []
  }

  class RestTemplate {
    /** The replies the endpoints will give, in call order. */
    var replies: seq<Reply>
    /** Every request sent so far, oldest first. */
    var sent: seq<Request>

    constructor (replies: seq<Reply>)
      ensures this.replies == replies && sent == []
    {
      this.replies := replies;
      sent := [];
    }

    /** Sends one POST and consumes one scripted reply. */
    method PostForEntity(url: string, body: Body) returns (reply: Reply)
      modifies this
      ensures reply == NextReply(old(replies))
      ensures replies == Drop(old(replies), 1)
      ensures sent == old(sent) + [Request(url, body)]
    {
      reply := NextReply(replies);
      replies := Drop(replies, 1);
      sent := sent + [Request(url, body)];
    }
  }

  // ---------------------------------------------------------------------
  // Notifications as ordered lists of calls
  // ---------------------------------------------------------------------

  /** One guarded `postForEntity` of a notification. `endpoint` is set when
      the caller checks the status code: it is the name the failure message
      gives the endpoint ("Endpoint 1", "Endpoint 2", "Endpoint"). */
  datatype Call = Call(url: string, body: Body, endpoint: Option<string>)

  /** The exception a call ends the notification with, if any: the thrown
      exception itself, or an IllegalStateException for a status outside 2xx
      when the caller checks it. */
  function CallFailure(reply: Reply, endpoint: Option<string>): (e: Option<Exception>)
    ensures reply.Thrown? ==> e == Some(RestClient(reply.message))
    ensures reply.Response? && Is2xx(reply.status) ==> e.None?
    ensures reply.Response? && endpoint.None? ==> e.None?
    ensures reply.Response? && !Is2xx(reply.status) && endpoint.Some? ==>
              e.Some? && e.value.IllegalState? && e.value.message.Some? &&
              endpoint.value <= e.value.message.value
  {
    match reply
    case Thrown(m) => Some(RestClient(m))
    case Response(status, text) =>
      if endpoint.Some? && !Is2xx(status)
      then Some(IllegalState(Some(endpoint.value + " zwrócił status " + text)))
      else None
  }

  /** A call made only when its URL is set and not blank. */
  function Guarded(url: Option<string>, body: Body, endpoint: Option<string>): (calls: seq<Call>)
    ensures HasText(url) ==> calls == [Call(url.value, body, endpoint)]
    ensures !HasText(url) ==> calls == []
  {
    if HasText(url) then [Call(url.value, body, endpoint)] else []
  }

  /** How far a notification got: the number of calls made and the
      exception that stopped it. */
  datatype Dispatch = Dispatch(made: nat, failure: Option<Exception>)

  /** Reference semantics of a notification: make the calls in order, each
      consuming the next reply, and stop after the first that fails. */
  function FanOut(calls: seq<Call>, replies: seq<Reply>): (d: Dispatch)
    ensures d.made <= |calls|
    ensures d.failure.None? ==> d.made == |calls|
    ensures d.failure.Some? ==> d.made >= 1
    decreases |calls|
  {
    if calls == [] then Dispatch(0, None)
    else
      var e := CallFailure(NextReply(replies), calls[0].endpoint);
      if e.Some? then Dispatch(1, e)
      else
        var rest := FanOut(calls[1..], Drop(replies, 1));
        Dispatch(rest.made + 1, rest.failure)
  }

  /** The requests a list of calls sends, all of them. */
  function Requests(calls: seq<Call>): (r: seq<Request>)
    ensures |r| == |calls|
    ensures forall i :: 0 <= i < |calls| ==> r[i] == Request(calls[i].url, calls[i].body)
  {
    seq(|calls|, i requires 0 <= i < |calls| => Request(calls[i].url, calls[i].body))
  }

  /** A notification fails exactly when one of its calls fails; then it
      failed at the first failing call, and every call after that one was
      never made. */
  lemma {:induction false} FanOutFailsAtFirstFailure(calls: seq<Call>, replies: seq<Reply>)
    ensures FanOut(calls, replies).failure.None? <==>
              forall i :: 0 <= i < |calls| ==> CallFailure(ReplyAt(replies, i), calls[i].endpoint).None?
    ensures var d := FanOut(calls, replies);
              d.failure.Some? ==>
                d.failure == CallFailure(ReplyAt(replies, d.made - 1), calls[d.made - 1].endpoint) &&
                forall i :: 0 <= i < d.made - 1 ==> CallFailure(ReplyAt(replies, i), calls[i].endpoint).None?
    decreases |calls|
  {
    if calls != [] {
      assert NextReply(replies) == ReplyAt(replies, 0);
      var e := CallFailure(NextReply(replies), calls[0].endpoint);
      if e.None? {
        var tail := calls[1..];
        var later := Drop(replies, 1);
        FanOutFailsAtFirstFailure(tail, later);
        forall i | 1 <= i < |calls|
          ensures CallFailure(ReplyAt(replies, i), calls[i].endpoint)
               == CallFailure(ReplyAt(later, i - 1), tail[i - 1].endpoint)
        {
          assert ReplyAt(later, i - 1) == ReplyAt(replies, 1 + (i - 1));
        }
      }
    }
  }

  /** Calls whose status is not checked and whose endpoint never throws
      always all go through. */
  lemma {:induction false} FanOutUncheckedSucceeds(calls: seq<Call>, replies: seq<Reply>)
    requires forall i :: 0 <= i < |calls| ==> calls[i].endpoint.None?
    requires forall i :: 0 <= i < |calls| ==> ReplyAt(replies, i).Response?
    ensures FanOut(calls, replies) == Dispatch(|calls|, None)
  {
    FanOutFailsAtFirstFailure(calls, replies);
  }

  /** Prepending a call that succeeds shifts the rest of the notification by
      one reply. */
  lemma FanOutAfterSuccess(c: Call, calls: seq<Call>, replies: seq<Reply>)
    requires CallFailure(NextReply(replies), c.endpoint).None?
    ensures FanOut([c] + calls, replies) ==
              Dispatch(FanOut(calls, Drop(replies, 1)).made + 1, FanOut(calls, Drop(replies, 1)).failure)
  {
    assert ([c] + calls)[1..] == calls;
  }
}
