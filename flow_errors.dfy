/** FlowErrorService: reading a flow's errors (all of them, or the first
    one per distinct message), a user's errors across their flows, and
    deleting errors, one at a time with a webhook or all of a flow's. */
module FlowErrors {
  import opened Common
  import opened Entities
  import opened Repositories
  import opened Webhooks

  // ---------------------------------------------------------------------
  // First error per distinct message
  // ---------------------------------------------------------------------

  /** The non-null messages that occur in `s`. */
  function MessagesIn(s: seq<FlowError>): (ms: set<string>)
    ensures forall m :: m in ms <==> exists i :: 0 <= i < |s| && s[i].message == Some(m)
    decreases |s|
  {
    if s == [] then {}
    else
      var init := s[..|s| - 1];
      var rest := MessagesIn(init);
      assert forall i :: 0 <= i < |init| ==> init[i] == s[i];
      if s[|s| - 1].message.Some? then rest + {s[|s| - 1].message.value} else rest
  }

  /** `s[i]` carries a message and no earlier error carries the same one. */
  predicate FirstOccurrence(s: seq<FlowError>, i: int)
    requires 0 <= i < |s|
  {
    s[i].message.Some? && forall j :: 0 <= j < i ==> s[j].message != s[i].message
  }

  /** Reference definition of the duplicate filter: the errors that are
      the first with their message, in order. */
  function KeepFirsts(s: seq<FlowError>): seq<FlowError>
    decreases |s|
  {
    if s == [] then []
    else
      var init, last := s[..|s| - 1], s[|s| - 1];
      if last.message.Some? && last.message.value !in MessagesIn(init)
      then KeepFirsts(init) + [last]
      else KeepFirsts(init)
  }

  /** The filtered list is a sublist of the input. */
  lemma {:induction false} KeepFirstsIsSubsequence(s: seq<FlowError>)
    ensures IsSubsequence(KeepFirsts(s), s)
    decreases |s|
  {
    if s != [] {
      var init, last := s[..|s| - 1], s[|s| - 1];
      KeepFirstsIsSubsequence(init);
      var r := KeepFirsts(init);
      if last.message.Some? && last.message.value !in MessagesIn(init) {
        assert (r + [last])[..|r|] == r;
      } else {
        assert s == init + [last];
        SubsequenceOfLonger(r, init, last);
      }
    }
  }

  /** Every error in `r` carries a message, and no two carry the same. */
  predicate DistinctMessages(r: seq<FlowError>)
  {
    (forall i :: 0 <= i < |r| ==> r[i].message.Some?) &&
    (forall i, j :: 0 <= i < j < |r| ==> r[i].message != r[j].message)
  }

  /** The filtered list carries exactly the input's messages, none of them
      null and each once. */
  lemma {:induction false} KeepFirstsDistinct(s: seq<FlowError>)
    ensures forall i :: 0 <= i < |KeepFirsts(s)| ==> KeepFirsts(s)[i].message.Some?
    ensures forall i, j :: 0 <= i < j < |KeepFirsts(s)| ==> KeepFirsts(s)[i].message != KeepFirsts(s)[j].message
    ensures MessagesIn(KeepFirsts(s)) == MessagesIn(s)
    decreases |s|
  {
    if s != [] {
      var init, last := s[..|s| - 1], s[|s| - 1];
      KeepFirstsDistinct(init);
      var r := KeepFirsts(init);
      assert s == init + [last];
      MessagesOfAppend(init, last);
      if last.message.Some? && last.message.value !in MessagesIn(init) {
        AppendNewMessage(r, last);
      }
    }
  }

  /** The messages of a list grown by one error. */
  lemma MessagesOfAppend(init: seq<FlowError>, last: FlowError)
    ensures last.message.None? ==> MessagesIn(init + [last]) == MessagesIn(init)
    ensures last.message.Some? ==> MessagesIn(init + [last]) == MessagesIn(init) + {last.message.value}
  {
    var s := init + [last];
    assert s[..|s| - 1] == init;
  }

  /** Appending an error with a message not yet present keeps the messages
      distinct. */
  lemma AppendNewMessage(r: seq<FlowError>, last: FlowError)
    requires DistinctMessages(r)
    requires last.message.Some? && last.message.value !in MessagesIn(r)
    ensures DistinctMessages(r + [last])
  {
    var r' := r + [last];
    forall i, j | 0 <= i < j < |r'|
      ensures r'[i].message != r'[j].message
    {
      if j == |r| {
        assert r'[i] == r[i];
        assert r'[i].message.value in MessagesIn(r);
      }
    }
  }

  /** Every error the filter keeps is the first one in the input with its
      message. */
  lemma {:induction false} KeepFirstsKeepsFirstOccurrences(s: seq<FlowError>)
    ensures forall e :: e in KeepFirsts(s) ==> exists i :: 0 <= i < |s| && s[i] == e && FirstOccurrence(s, i)
    decreases |s|
  {
    if s != [] {
      var init, last := s[..|s| - 1], s[|s| - 1];
      KeepFirstsKeepsFirstOccurrences(init);
      var r := KeepFirsts(init);
      forall e | e in r
        ensures exists i :: 0 <= i < |s| && s[i] == e && FirstOccurrence(s, i)
      {
        var i :| 0 <= i < |init| && init[i] == e && FirstOccurrence(init, i);
        assert forall j :: 0 <= j <= i ==> init[j] == s[j];
        assert s[i] == e && FirstOccurrence(s, i);
      }
      if last.message.Some? && last.message.value !in MessagesIn(init) {
        assert FirstOccurrence(s, |s| - 1) by {
          forall j | 0 <= j < |s| - 1
            ensures s[j].message != last.message
          {
            assert init[j] == s[j];
          }
        }
      }
    }
  }

  // ---------------------------------------------------------------------
  // A user's errors
  // ---------------------------------------------------------------------

  /** The errors whose flow id is one of `flowIds`, in order. */
  function ErrorsOfFlows(errors: seq<FlowError>, flowIds: set<string>): (r: seq<FlowError>)
    ensures forall e :: e in r <==> e in errors && e.flowId.Some? && e.flowId.value in flowIds
    ensures IsSubsequence(r, errors)
    decreases |errors|
  {
    if errors == [] then []
    else
      var init, last := errors[..|errors| - 1], errors[|errors| - 1];
      var rest := ErrorsOfFlows(init, flowIds);
      assert errors == init + [last];
      SubsequenceOfLonger(rest, init, last);
      if last.flowId.Some? && last.flowId.value in flowIds then
        assert (rest + [last])[..|rest|] == rest;
        rest + [last]
      else rest
  }

  /** The errors of one flow, read through ErrorsOfFlows: a user's errors
      are the union of the errors of each flow. */
  lemma {:induction false} ErrorsOfOneFlow(errors: seq<FlowError>, flowId: string)
    ensures ErrorsOfFlows(errors, {flowId}) == ErrorsOfFlow(errors, Some(flowId))
    decreases |errors|
  {
    if errors != [] {
      ErrorsOfOneFlow(errors[..|errors| - 1], flowId);
    }
  }

  // ---------------------------------------------------------------------
  // The service
  // ---------------------------------------------------------------------

  /** The body of the delete notification for one error. */
  function ErrorDeleteBody(error: FlowError): Body
  {
    map["error_id" := JsonText(error.id), "flow_id" := JsonText(error.flowId),
        "message" := JsonText(error.message)]
  }

  /** The error-delete announcement fails exactly when its endpoint is
      set and the call throws; a status is never judged. It sends at most
      one request. */
  lemma ErrorDeleteFailsOnlyByException(url: Option<string>, error: FlowError, replies: seq<Reply>)
    ensures var calls := Guarded(url, ErrorDeleteBody(error), None);
            var d := FanOut(calls, replies);
            d.made <= 1 &&
            (d.failure.Some? <==> HasText(url) && ReplyAt(replies, 0).Thrown?)
  {
    var calls := Guarded(url, ErrorDeleteBody(error), None);
    FanOutFailsAtFirstFailure(calls, replies);
  }

  class FlowErrorService {
    const flowErrorRepository: FlowErrorRepository
    const dataFlowRepository: FlowRepository
    const restTemplate: RestTemplate
    const errorDeleteWebhookEndpoint: Option<string>

    constructor (flowErrorRepository: FlowErrorRepository, dataFlowRepository: FlowRepository,
                 restTemplate: RestTemplate, errorDeleteWebhookEndpoint: Option<string>)
      ensures this.flowErrorRepository == flowErrorRepository
      ensures this.dataFlowRepository == dataFlowRepository
      ensures this.restTemplate == restTemplate
      ensures this.errorDeleteWebhookEndpoint == errorDeleteWebhookEndpoint
    {
      this.flowErrorRepository := flowErrorRepository;
      this.dataFlowRepository := dataFlowRepository;
      this.restTemplate := restTemplate;
      this.errorDeleteWebhookEndpoint := errorDeleteWebhookEndpoint;
    }

    method GetErrorsByFlowId(flowId: Option<string>) returns (errors: seq<FlowError>)
      ensures errors == ErrorsOfFlow(flowErrorRepository.errors, flowId)
      ensures forall e :: e in errors <==> e in flowErrorRepository.errors && e.flowId == flowId
    {
      errors := flowErrorRepository.FindByFlowId(flowId);
    }

    /** Walks the flow's errors once, keeping an error when it has a message
        not seen before. */
    method GetUniqueErrorsByFlowId(flowId: Option<string>) returns (uniqueErrors: seq<FlowError>)
      ensures uniqueErrors == KeepFirsts(ErrorsOfFlow(flowErrorRepository.errors, flowId))
    {
      var allErrors := flowErrorRepository.FindByFlowId(flowId);
      uniqueErrors := [];
      var seenMessages: set<string> := {};
      var i := 0;
      while i < |allErrors|
        invariant 0 <= i <= |allErrors|
        invariant uniqueErrors == KeepFirsts(allErrors[..i])
        invariant seenMessages == MessagesIn(allErrors[..i])
      {
        var error := allErrors[i];
        assert allErrors[..i + 1] == allErrors[..i] + [error];
        assert allErrors[..i + 1][..i] == allErrors[..i];
        MessagesOfAppend(allErrors[..i], error);
        if error.message.Some? && error.message.value !in seenMessages {
          seenMessages := seenMessages + {error.message.value};
          uniqueErrors := uniqueErrors + [error];
        }
        i := i + 1;
      }
      assert allErrors[..i] == allErrors;
    }

    /** The errors of every flow the user owns; a user id that is not an
        ObjectId yields none. */
    method GetErrorsByUserId(userId: string) returns (errors: seq<FlowError>)
      requires dataFlowRepository.Valid()
      ensures ParseObjectId(userId).None? ==> errors == []
      ensures ParseObjectId(userId).Some? ==>
                errors == ErrorsOfFlows(flowErrorRepository.errors,
                                        FlowsOwnedBy(dataFlowRepository.docs, ParseObjectId(userId).value))
    {
      var objectId := ParseObjectId(userId);
      if objectId.None? {
        return [];
      }
      var userFlowIds := dataFlowRepository.FindByUserId(userId);
      var ids := set k | k in userFlowIds;
      assert ids == FlowsOwnedBy(dataFlowRepository.docs, objectId.value);
      errors := ErrorsOfFlows(flowErrorRepository.errors, ids);
    }

    /** An unknown id changes nothing. A known one is announced to the
        endpoint first; if that call throws, the error stays, otherwise
        it is removed. */
    method DeleteError(errorId: string) returns (thrown: Option<Exception>)
      modifies flowErrorRepository, restTemplate
      ensures var error := ErrorById(old(flowErrorRepository.errors), errorId);
              error.None? ==>
                thrown.None? && flowErrorRepository.errors == old(flowErrorRepository.errors) &&
                restTemplate.sent == old(restTemplate.sent) &&
                restTemplate.replies == old(restTemplate.replies)
      ensures var error := ErrorById(old(flowErrorRepository.errors), errorId);
              error.Some? ==>
                var calls := Guarded(errorDeleteWebhookEndpoint, ErrorDeleteBody(error.value), None);
                var d := FanOut(calls, old(restTemplate.replies));
                thrown == d.failure &&
                restTemplate.sent == old(restTemplate.sent) + Requests(calls)[..d.made] &&
                restTemplate.replies == Drop(old(restTemplate.replies), d.made) &&
                (d.failure.None? ==> flowErrorRepository.errors == WithoutError(old(flowErrorRepository.errors), errorId)) &&
                (d.failure.Some? ==> flowErrorRepository.errors == old(flowErrorRepository.errors))
    {
      thrown := None;
      var error := flowErrorRepository.FindById(errorId);
      if error.Some? {
        thrown := NotifyExternalOnDelete(error.value);
        if thrown.Some? {
          return;
        }
        flowErrorRepository.DeleteById(errorId);
      }
    }

    method DeleteAllErrorsByFlowId(flowId: Option<string>)
      modifies flowErrorRepository
      ensures flowErrorRepository.errors == WithoutFlows(old(flowErrorRepository.errors), {flowId})
    {
      flowErrorRepository.DeleteByFlowId(flowId);
    }

    method NotifyExternalOnDelete(error: FlowError) returns (thrown: Option<Exception>)
      modifies restTemplate
      ensures var calls := Guarded(errorDeleteWebhookEndpoint, ErrorDeleteBody(error), None);
              var d := FanOut(calls, old(restTemplate.replies));
              thrown == d.failure &&
              restTemplate.sent == old(restTemplate.sent) + Requests(calls)[..d.made] &&
              restTemplate.replies == Drop(old(restTemplate.replies), d.made)
    {
      thrown := None;
      if !HasText(errorDeleteWebhookEndpoint) {
        return;
      }
      var payload := map["error_id" := JsonText(error.id)];
      payload := payload["flow_id" := JsonText(error.flowId)];
      payload := payload["message" := JsonText(error.message)];
      var reply := restTemplate.PostForEntity(errorDeleteWebhookEndpoint.value, payload);
      thrown := CallFailure(reply, None);
    }
  }
}
