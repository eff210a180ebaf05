/** DataFlowService: the flow lifecycle. Creating a flow persists it and
    then tells up to two external endpoints; if either fails, the record is
    removed again, the failure is published on the error topic and the
    caller gets an IllegalArgumentException. Deleting tells the delete
    endpoints first and touches the stores only when that succeeded.
    Start and stop record the new status and then tell one endpoint. */
module Flows {
  import opened Common
  import opened Entities
  import opened Repositories
  import opened Webhooks
  import opened ErrorEvents
  import opened FlowErrors

  const Endpoint1 := "Endpoint 1"
  const Endpoint2 := "Endpoint 2"
  const SaveFailedPrefix := "Zapis przepływu nieudany: "
  const DeleteFailedPrefix := "Usunięcie przepływu nieudane: "
  const NoSuchFlow := "Przepływ nie istnieje"

  /** resolveOwnerId: the id of the user with that email, or the email
      itself when no user has it. */
  function ResolveOwnerId(users: map<string, UserDoc>, ownerEmail: Option<string>): (r: Option<string>)
    requires UserValid(users)
    ensures EmailTaken(users, ownerEmail) ==>
              r.Some? && r.value in users && users[r.value].email == ownerEmail
    ensures !EmailTaken(users, ownerEmail) ==> r == ownerEmail
  {
    var owner := UserByEmail(users, ownerEmail);
    if owner.Some? && owner.value.id.Some? then owner.value.id else ownerEmail
  }

  /** The user id a notification carries: the flow's own, else the
      resolved owner. */
  function NotifiedUserId(users: map<string, UserDoc>, flow: FlowDoc): Option<string>
    requires UserValid(users)
  {
    if UserIdAsString(flow).Some? then UserIdAsString(flow) else ResolveOwnerId(users, flow.ownerEmail)
  }

  /** The flow as `save` hands it to the store: stamped with `now` and, when
      it has an owner email but no user id, linked to the owner; an owner
      id that is not an ObjectId makes the conversion throw. */
  function Prepared(flow: FlowDoc, users: map<string, UserDoc>, now: Timestamp): (r: Result<FlowDoc>)
    requires UserValid(users)
    ensures r.Success? ==> r.value.updatedAt == Some(now)
    ensures r.Success? ==> r.value == flow.(updatedAt := Some(now), userId := r.value.userId)
    ensures flow.userId.Some? || flow.ownerEmail.None? ==> r == Success(flow.(updatedAt := Some(now)))
    ensures r.Failure? ==> r.error.IllegalArgument?
  {
    var stamped := flow.(updatedAt := Some(now));
    if stamped.userId.None? && stamped.ownerEmail.Some? then
      var owner := ResolveOwnerId(users, stamped.ownerEmail);
      if owner.None? || owner.value == "" then Success(stamped)
      else if IsObjectIdHex(owner.value) then Success(stamped.(userId := ParseObjectId(owner.value)))
      else Failure(IllegalArgument(Some(InvalidObjectIdMessage(owner.value))))
    else Success(stamped)
  }

  /** A flow whose owner is a registered user with an ObjectId is linked to
      that user. */
  lemma PreparedLinksOwner(flow: FlowDoc, users: map<string, UserDoc>, now: Timestamp)
    requires UserValid(users)
    requires flow.userId.None? && flow.ownerEmail.Some? && EmailTaken(users, flow.ownerEmail)
    requires IsObjectIdHex(ResolveOwnerId(users, flow.ownerEmail).value)
    ensures var r := Prepared(flow, users, now);
            r.Success? && r.value.userId.Some? &&
            r.value.userId == ParseObjectId(UserByEmail(users, flow.ownerEmail).value.id.value)
  {
  }

  /** An owner email nobody registered is taken as the user id, and unless
      it happens to be an ObjectId the conversion fails, so such a flow
      cannot be saved. */
  lemma PreparedRejectsUnknownOwner(flow: FlowDoc, users: map<string, UserDoc>, now: Timestamp)
    requires UserValid(users)
    requires flow.userId.None? && flow.ownerEmail.Some? && !EmailTaken(users, flow.ownerEmail)
    requires flow.ownerEmail.value != "" && !IsObjectIdHex(flow.ownerEmail.value)
    ensures Prepared(flow, users, now) ==
              Failure(IllegalArgument(Some(InvalidObjectIdMessage(flow.ownerEmail.value))))
  {
  }

  /** The create notification: endpoint 1 (with the user id) then endpoint
      2, each only when configured, both with their status checked. */
  function CreateCalls(url1: Option<string>, url2: Option<string>, userId: Option<string>, flow: FlowDoc): seq<Call>
  {
    Guarded(url1, map["user_id" := JsonText(userId), "flow_id" := JsonText(flow.id),
                      "function" := JsonText(flow.code), "packages" := JsonList(flow.packages)],
            Some(Endpoint1)) +
    Guarded(url2, map["flow_id" := JsonText(flow.id), "function" := JsonText(flow.code),
                      "packages" := JsonList(flow.packages)],
            Some(Endpoint2))
  }

  /** The delete notification: same endpoints pattern, status unchecked. */
  function DeleteCalls(url1: Option<string>, url2: Option<string>, userId: Option<string>, flow: FlowDoc): seq<Call>
  {
    Guarded(url1, map["user_id" := JsonText(userId), "flow_id" := JsonText(flow.id)], None) +
    Guarded(url2, map["flow_id" := JsonText(flow.id)], None)
  }

  /** The start or stop notification: the flow id to one endpoint. */
  function StatusCalls(url: Option<string>, flow: FlowDoc): seq<Call>
  {
    Guarded(url, map["flow_id" := JsonText(flow.id)], None)
  }

  /** With no create endpoint configured nothing is sent and creation
      cannot fail at the notification step. */
  lemma CreateWithoutEndpoints(userId: Option<string>, flow: FlowDoc, replies: seq<Reply>)
    ensures CreateCalls(None, None, userId, flow) == []
    ensures FanOut(CreateCalls(None, None, userId, flow), replies) == Dispatch(0, None)
  {
  }

  /** Endpoint 1 is called first; when it fails, endpoint 2 is never
      called. */
  lemma CreateStopsAtEndpoint1(url1: Option<string>, url2: Option<string>, userId: Option<string>,
                               flow: FlowDoc, replies: seq<Reply>)
    requires HasText(url1)
    requires CallFailure(ReplyAt(replies, 0), Some(Endpoint1)).Some?
    ensures var calls := CreateCalls(url1, url2, userId, flow);
            calls[0].url == url1.value &&
            FanOut(calls, replies) == Dispatch(1, CallFailure(ReplyAt(replies, 0), Some(Endpoint1)))
  {
    var calls := CreateCalls(url1, url2, userId, flow);
    assert calls[0].endpoint == Some(Endpoint1);
    assert NextReply(replies) == ReplyAt(replies, 0);
  }

  /** Delete responses are never judged by status: a delete notification
      fails only if a call throws. */
  lemma DeleteFailsOnlyByException(url1: Option<string>, url2: Option<string>, userId: Option<string>,
                                   flow: FlowDoc, replies: seq<Reply>)
    ensures var calls := DeleteCalls(url1, url2, userId, flow);
            FanOut(calls, replies).failure.Some? <==>
              exists i :: 0 <= i < |calls| && ReplyAt(replies, i).Thrown?
  {
    var calls := DeleteCalls(url1, url2, userId, flow);
    FanOutFailsAtFirstFailure(calls, replies);
    assert forall i :: 0 <= i < |calls| ==> calls[i].endpoint.None?;
  }

  class DataFlowService {
    const dataFlowRepository: FlowRepository
    const userRepository: UserRepository
    const restTemplate: RestTemplate
    const errorEventPublisher: ErrorEventPublisher
    const flowErrorService: FlowErrorService
    const flowCreateWebhookEndpoint: Option<string>
    const flowCreateWebhookEndpoint2: Option<string>
    const flowDeleteWebhookEndpoint: Option<string>
    const flowDeleteWebhookEndpoint2: Option<string>
    const flowStartWebhookEndpoint: Option<string>
    const flowStopWebhookEndpoint: Option<string>

    ghost predicate Valid()
      reads dataFlowRepository, userRepository
    {
      dataFlowRepository.Valid() && userRepository.Valid()
    }

    constructor (dataFlowRepository: FlowRepository, userRepository: UserRepository,
                 restTemplate: RestTemplate, errorEventPublisher: ErrorEventPublisher,
                 flowErrorService: FlowErrorService,
                 create1: Option<string>, create2: Option<string>,
                 delete1: Option<string>, delete2: Option<string>,
                 start: Option<string>, stop: Option<string>)
      ensures this.dataFlowRepository == dataFlowRepository && this.userRepository == userRepository
      ensures this.restTemplate == restTemplate && this.errorEventPublisher == errorEventPublisher
      ensures this.flowErrorService == flowErrorService
      ensures flowCreateWebhookEndpoint == create1 && flowCreateWebhookEndpoint2 == create2
      ensures flowDeleteWebhookEndpoint == delete1 && flowDeleteWebhookEndpoint2 == delete2
      ensures flowStartWebhookEndpoint == start && flowStopWebhookEndpoint == stop
    {
      this.dataFlowRepository, this.userRepository := dataFlowRepository, userRepository;
      this.restTemplate, this.errorEventPublisher := restTemplate, errorEventPublisher;
      this.flowErrorService := flowErrorService;
      flowCreateWebhookEndpoint, flowCreateWebhookEndpoint2 := create1, create2;
      flowDeleteWebhookEndpoint, flowDeleteWebhookEndpoint2 := delete1, delete2;
      flowStartWebhookEndpoint, flowStopWebhookEndpoint := start, stop;
    }

    method FindByOwnerEmail(ownerEmail: Option<string>) returns (found: seq<FlowDoc>)
      requires Valid()
      ensures forall d :: d in found <==> d in dataFlowRepository.docs.Values && d.ownerEmail == ownerEmail
      ensures forall i, j :: 0 <= i < j < |found| ==> found[i] != found[j]
    {
      found := dataFlowRepository.FindByOwnerEmail(ownerEmail);
    }

    method FindById(id: string) returns (flow: Option<DataFlow>)
      ensures flow.Some? <==> id in dataFlowRepository.docs
      ensures flow.Some? ==> fresh(flow.value) && flow.value.Doc() == dataFlowRepository.docs[id]
    {
      flow := dataFlowRepository.FindById(id);
    }

    method FindAll() returns (all: seq<FlowDoc>)
      requires Valid()
      ensures forall d :: d in all <==> d in dataFlowRepository.docs.Values
      ensures forall i, j :: 0 <= i < j < |all| ==> all[i] != all[j]
    {
      all := dataFlowRepository.FindAll();
    }

    /** Persists the flow. A flow that already had an id is only stored. A
        new one is stored under `newId` and announced; if the announcement
        fails the record is deleted again, the failure is published and
        IllegalArgumentException is thrown. `now` is the local clock,
        `instant` the publish instant. */
    method Save(dataFlow: DataFlow, now: Timestamp, newId: string, instant: Timestamp)
      returns (saved: DataFlow, thrown: Option<Exception>)
      requires Valid()
      requires dataFlow.id.None? ==> FreshObjectId(newId, dataFlowRepository.docs.Keys)
      modifies dataFlow, dataFlowRepository, restTemplate, errorEventPublisher
      ensures Valid()
      ensures saved == dataFlow
      ensures var prepared := Prepared(old(dataFlow.Doc()), userRepository.docs, now);
              prepared.Failure? ==>
                thrown == Some(prepared.error) &&
                dataFlow.Doc() == old(dataFlow.Doc()).(updatedAt := Some(now)) &&
                dataFlowRepository.docs == old(dataFlowRepository.docs) &&
                restTemplate.sent == old(restTemplate.sent) &&
                restTemplate.replies == old(restTemplate.replies) &&
                errorEventPublisher.bus == old(errorEventPublisher.bus) &&
                errorEventPublisher.sendThrows == old(errorEventPublisher.sendThrows) &&
                errorEventPublisher.log == old(errorEventPublisher.log)
      ensures var prepared := Prepared(old(dataFlow.Doc()), userRepository.docs, now);
              prepared.Success? && old(dataFlow.id).Some? ==>
                thrown.None? && dataFlow.Doc() == prepared.value &&
                dataFlowRepository.docs == old(dataFlowRepository.docs)[old(dataFlow.id).value := prepared.value] &&
                restTemplate.sent == old(restTemplate.sent) &&
                restTemplate.replies == old(restTemplate.replies) &&
                errorEventPublisher.bus == old(errorEventPublisher.bus) &&
                errorEventPublisher.sendThrows == old(errorEventPublisher.sendThrows) &&
                errorEventPublisher.log == old(errorEventPublisher.log)
      ensures var prepared := Prepared(old(dataFlow.Doc()), userRepository.docs, now);
              prepared.Success? && old(dataFlow.id).None? ==>
                var stored := prepared.value.(id := Some(newId));
                var calls := CreateCalls(flowCreateWebhookEndpoint, flowCreateWebhookEndpoint2,
                                         NotifiedUserId(userRepository.docs, stored), stored);
                var d := FanOut(calls, old(restTemplate.replies));
                dataFlow.Doc() == stored &&
                restTemplate.sent == old(restTemplate.sent) + Requests(calls)[..d.made] &&
                restTemplate.replies == Drop(old(restTemplate.replies), d.made) &&
                (d.failure.None? ==>
                   thrown.None? &&
                   dataFlowRepository.docs == old(dataFlowRepository.docs)[newId := stored] &&
                   errorEventPublisher.bus == old(errorEventPublisher.bus) &&
                   errorEventPublisher.sendThrows == old(errorEventPublisher.sendThrows) &&
                   errorEventPublisher.log == old(errorEventPublisher.log)) &&
                (d.failure.Some? ==>
                   thrown == Some(IllegalArgument(Some(SaveFailedPrefix + Show(MessageOf(d.failure.value))))) &&
                   dataFlowRepository.docs == old(dataFlowRepository.docs) &&
                   errorEventPublisher.bus ==
                     BusAfter(old(errorEventPublisher.bus), old(errorEventPublisher.sendThrows),
                              errorEventPublisher.topic,
                              EventPayload(None, Some(newId), UserIdAsString(stored),
                                           MessageOf(d.failure.value), instant)) &&
                   errorEventPublisher.sendThrows == DropOne(old(errorEventPublisher.sendThrows)) &&
                   errorEventPublisher.log == LogAfter(old(errorEventPublisher.log), old(errorEventPublisher.sendThrows)))
    {
      saved := dataFlow;
      thrown := None;
      var isNew := dataFlow.id.None?;
      dataFlow.SetUpdatedAt(Some(now));
      if dataFlow.userId.None? && dataFlow.ownerEmail.Some? {
        var ex := dataFlow.SetUserIdFromString(ResolveOwnerId(userRepository.docs, dataFlow.ownerEmail));
        if ex.Some? {
          thrown := ex;
          return;
        }
      }
      if isNew {
        thrown := InsertAndAnnounce(dataFlow, newId, instant);
        return;
      }
      saved := dataFlowRepository.Save(dataFlow, newId);
    }

    /** The new-flow part of save: the flow is stored under `newId` and
        announced; a failed announcement deletes the record again,
        publishes the failure and becomes an IllegalArgumentException. */
    method InsertAndAnnounce(dataFlow: DataFlow, newId: string, instant: Timestamp) returns (thrown: Option<Exception>)
      requires Valid()
      requires dataFlow.id.None? && FreshObjectId(newId, dataFlowRepository.docs.Keys)
      modifies dataFlow, dataFlowRepository, restTemplate, errorEventPublisher
      ensures Valid()
      ensures var stored := old(dataFlow.Doc()).(id := Some(newId));
              var calls := CreateCalls(flowCreateWebhookEndpoint, flowCreateWebhookEndpoint2,
                                       NotifiedUserId(userRepository.docs, stored), stored);
              var d := FanOut(calls, old(restTemplate.replies));
              dataFlow.Doc() == stored &&
              restTemplate.sent == old(restTemplate.sent) + Requests(calls)[..d.made] &&
              restTemplate.replies == Drop(old(restTemplate.replies), d.made) &&
              (d.failure.None? ==>
                 thrown.None? &&
                 dataFlowRepository.docs == old(dataFlowRepository.docs)[newId := stored] &&
                 errorEventPublisher.bus == old(errorEventPublisher.bus) &&
                 errorEventPublisher.sendThrows == old(errorEventPublisher.sendThrows) &&
                 errorEventPublisher.log == old(errorEventPublisher.log)) &&
              (d.failure.Some? ==>
                 thrown == Some(IllegalArgument(Some(SaveFailedPrefix + Show(MessageOf(d.failure.value))))) &&
                 dataFlowRepository.docs == old(dataFlowRepository.docs) &&
                 errorEventPublisher.bus ==
                   BusAfter(old(errorEventPublisher.bus), old(errorEventPublisher.sendThrows),
                            errorEventPublisher.topic,
                            EventPayload(None, Some(newId), UserIdAsString(stored),
                                         MessageOf(d.failure.value), instant)) &&
                 errorEventPublisher.sendThrows == DropOne(old(errorEventPublisher.sendThrows)) &&
                 errorEventPublisher.log == LogAfter(old(errorEventPublisher.log), old(errorEventPublisher.sendThrows)))
    {
      ghost var docs0 := dataFlowRepository.docs;
      ghost var stored := dataFlow.Doc().(id := Some(newId));
      var saved := dataFlowRepository.Save(dataFlow, newId);
      assert saved.Doc() == stored;
      var failure := NotifyExternalOnCreate(saved);
      if failure.Some? {
        if saved.id.Some? {
          dataFlowRepository.DeleteById(saved.id.value);
        }
        AddThenRemove(docs0, newId, stored);
        errorEventPublisher.Publish(None, saved.id, saved.GetUserIdAsString(), MessageOf(failure.value), instant);
        return Some(IllegalArgument(Some(SaveFailedPrefix + Show(MessageOf(failure.value)))));
      }
      thrown := None;
    }

    /** Announces the deletion, then removes the flow's errors and the
        flow. A failing announcement is published and turned into an
        IllegalArgumentException before either store is touched. */
    method Delete(dataFlow: DataFlow, instant: Timestamp) returns (thrown: Option<Exception>)
      requires Valid()
      modifies dataFlowRepository, restTemplate, errorEventPublisher, flowErrorService.flowErrorRepository
      ensures Valid()
      ensures var flow := dataFlow.Doc();
              var calls := DeleteCalls(flowDeleteWebhookEndpoint, flowDeleteWebhookEndpoint2,
                                       NotifiedUserId(userRepository.docs, flow), flow);
              var d := FanOut(calls, old(restTemplate.replies));
              restTemplate.sent == old(restTemplate.sent) + Requests(calls)[..d.made] &&
              restTemplate.replies == Drop(old(restTemplate.replies), d.made) &&
              (d.failure.Some? ==>
                 thrown == Some(IllegalArgument(Some(DeleteFailedPrefix + Show(MessageOf(d.failure.value))))) &&
                 dataFlowRepository.docs == old(dataFlowRepository.docs) &&
                 flowErrorService.flowErrorRepository.errors == old(flowErrorService.flowErrorRepository.errors) &&
                 errorEventPublisher.bus ==
                   BusAfter(old(errorEventPublisher.bus), old(errorEventPublisher.sendThrows),
                            errorEventPublisher.topic,
                            EventPayload(None, flow.id, UserIdAsString(flow), MessageOf(d.failure.value), instant)) &&
                 errorEventPublisher.sendThrows == DropOne(old(errorEventPublisher.sendThrows)) &&
                 errorEventPublisher.log == LogAfter(old(errorEventPublisher.log), old(errorEventPublisher.sendThrows))) &&
              (d.failure.None? ==>
                 thrown.None? &&
                 flowErrorService.flowErrorRepository.errors ==
                   WithoutFlows(old(flowErrorService.flowErrorRepository.errors), {flow.id}) &&
                 dataFlowRepository.docs == (if flow.id.Some? then old(dataFlowRepository.docs) - {flow.id.value}
                                             else old(dataFlowRepository.docs)) &&
                 errorEventPublisher.bus == old(errorEventPublisher.bus) &&
                 errorEventPublisher.sendThrows == old(errorEventPublisher.sendThrows) &&
                 errorEventPublisher.log == old(errorEventPublisher.log))
    {
      var failure := NotifyExternalOnDelete(dataFlow);
      if failure.Some? {
        errorEventPublisher.Publish(None, dataFlow.id, dataFlow.GetUserIdAsString(), MessageOf(failure.value), instant);
        return Some(IllegalArgument(Some(DeleteFailedPrefix + Show(MessageOf(failure.value)))));
      }
      thrown := None;
      flowErrorService.DeleteAllErrorsByFlowId(dataFlow.id);
      dataFlowRepository.Delete(dataFlow);
    }

    /** Deletes the stored flow with that id through Delete; an unknown id
        changes nothing. */
    method DeleteById(id: string, instant: Timestamp) returns (thrown: Option<Exception>)
      requires Valid()
      modifies dataFlowRepository, restTemplate, errorEventPublisher, flowErrorService.flowErrorRepository
      ensures Valid()
      ensures id !in old(dataFlowRepository.docs) ==>
                thrown.None? && dataFlowRepository.docs == old(dataFlowRepository.docs) &&
                restTemplate.sent == old(restTemplate.sent) &&
                restTemplate.replies == old(restTemplate.replies) &&
                errorEventPublisher.bus == old(errorEventPublisher.bus) &&
                errorEventPublisher.sendThrows == old(errorEventPublisher.sendThrows) &&
                errorEventPublisher.log == old(errorEventPublisher.log) &&
                flowErrorService.flowErrorRepository.errors == old(flowErrorService.flowErrorRepository.errors)
      ensures id in old(dataFlowRepository.docs) ==>
                var flow := old(dataFlowRepository.docs)[id];
                var calls := DeleteCalls(flowDeleteWebhookEndpoint, flowDeleteWebhookEndpoint2,
                                         NotifiedUserId(userRepository.docs, flow), flow);
                var d := FanOut(calls, old(restTemplate.replies));
                restTemplate.sent == old(restTemplate.sent) + Requests(calls)[..d.made] &&
                restTemplate.replies == Drop(old(restTemplate.replies), d.made) &&
                (d.failure.Some? ==>
                   thrown == Some(IllegalArgument(Some(DeleteFailedPrefix + Show(MessageOf(d.failure.value))))) &&
                   dataFlowRepository.docs == old(dataFlowRepository.docs) &&
                   flowErrorService.flowErrorRepository.errors == old(flowErrorService.flowErrorRepository.errors) &&
                   errorEventPublisher.bus ==
                     BusAfter(old(errorEventPublisher.bus), old(errorEventPublisher.sendThrows),
                              errorEventPublisher.topic,
                              EventPayload(None, Some(id), UserIdAsString(flow), MessageOf(d.failure.value), instant)) &&
                   errorEventPublisher.sendThrows == DropOne(old(errorEventPublisher.sendThrows)) &&
                   errorEventPublisher.log == LogAfter(old(errorEventPublisher.log), old(errorEventPublisher.sendThrows))) &&
                (d.failure.None? ==>
                   thrown.None? && dataFlowRepository.docs == old(dataFlowRepository.docs) - {id} &&
                   flowErrorService.flowErrorRepository.errors ==
                     WithoutFlows(old(flowErrorService.flowErrorRepository.errors), {Some(id)}) &&
                   errorEventPublisher.bus == old(errorEventPublisher.bus) &&
                   errorEventPublisher.sendThrows == old(errorEventPublisher.sendThrows) &&
                   errorEventPublisher.log == old(errorEventPublisher.log))
    {
      thrown := None;
      var flowOpt := dataFlowRepository.FindById(id);
      if flowOpt.Some? {
        thrown := Delete(flowOpt.value, instant);
      }
    }

    /** Marks the flow RUNNING, stores it, then announces the start; an
        exception from the announcement reaches the caller after the store
        was updated. */
    method StartFlow(flowId: string, now: Timestamp) returns (thrown: Option<Exception>)
      requires Valid()
      modifies dataFlowRepository, restTemplate
      ensures Valid()
      ensures flowId !in old(dataFlowRepository.docs) ==>
                thrown == Some(IllegalArgument(Some(NoSuchFlow))) &&
                dataFlowRepository.docs == old(dataFlowRepository.docs) &&
                restTemplate.sent == old(restTemplate.sent) &&
                restTemplate.replies == old(restTemplate.replies)
      ensures flowId in old(dataFlowRepository.docs) ==>
                var flow := old(dataFlowRepository.docs)[flowId].(status := Some(Running), updatedAt := Some(now));
                var d := FanOut(StatusCalls(flowStartWebhookEndpoint, flow), old(restTemplate.replies));
                dataFlowRepository.docs == old(dataFlowRepository.docs)[flowId := flow] &&
                restTemplate.sent == old(restTemplate.sent) + Requests(StatusCalls(flowStartWebhookEndpoint, flow))[..d.made] &&
                restTemplate.replies == Drop(old(restTemplate.replies), d.made) &&
                thrown == d.failure
    {
      var flowOpt := dataFlowRepository.FindById(flowId);
      if flowOpt.None? {
        return Some(IllegalArgument(Some(NoSuchFlow)));
      }
      var flow := flowOpt.value;
      flow.SetStatus(Some(Running));
      flow.SetUpdatedAt(Some(now));
      var _ := dataFlowRepository.Save(flow, flowId);
      thrown := NotifyStatus(flowStartWebhookEndpoint, flow);
    }

    /** Marks the flow STOPPED, stores it, then announces the stop. */
    method StopFlow(flowId: string, now: Timestamp) returns (thrown: Option<Exception>)
      requires Valid()
      modifies dataFlowRepository, restTemplate
      ensures Valid()
      ensures flowId !in old(dataFlowRepository.docs) ==>
                thrown == Some(IllegalArgument(Some(NoSuchFlow))) &&
                dataFlowRepository.docs == old(dataFlowRepository.docs) &&
                restTemplate.sent == old(restTemplate.sent) &&
                restTemplate.replies == old(restTemplate.replies)
      ensures flowId in old(dataFlowRepository.docs) ==>
                var flow := old(dataFlowRepository.docs)[flowId].(status := Some(Stopped), updatedAt := Some(now));
                var d := FanOut(StatusCalls(flowStopWebhookEndpoint, flow), old(restTemplate.replies));
                dataFlowRepository.docs == old(dataFlowRepository.docs)[flowId := flow] &&
                restTemplate.sent == old(restTemplate.sent) + Requests(StatusCalls(flowStopWebhookEndpoint, flow))[..d.made] &&
                restTemplate.replies == Drop(old(restTemplate.replies), d.made) &&
                thrown == d.failure
    {
      var flowOpt := dataFlowRepository.FindById(flowId);
      if flowOpt.None? {
        return Some(IllegalArgument(Some(NoSuchFlow)));
      }
      var flow := flowOpt.value;
      flow.SetStatus(Some(Stopped));
      flow.SetUpdatedAt(Some(now));
      var _ := dataFlowRepository.Save(flow, flowId);
      thrown := NotifyStatus(flowStopWebhookEndpoint, flow);
    }

    method NotifyExternalOnCreate(flow: DataFlow) returns (thrown: Option<Exception>)
      requires userRepository.Valid()
      modifies restTemplate
      ensures var calls := CreateCalls(flowCreateWebhookEndpoint, flowCreateWebhookEndpoint2,
                                       NotifiedUserId(userRepository.docs, flow.Doc()), flow.Doc());
              var d := FanOut(calls, old(restTemplate.replies));
              thrown == d.failure &&
              restTemplate.sent == old(restTemplate.sent) + Requests(calls)[..d.made] &&
              restTemplate.replies == Drop(old(restTemplate.replies), d.made)
    {
      var userId := if flow.GetUserIdAsString().Some? then flow.GetUserIdAsString()
                    else ResolveOwnerId(userRepository.docs, flow.ownerEmail);
      ghost var calls := CreateCalls(flowCreateWebhookEndpoint, flowCreateWebhookEndpoint2, userId, flow.Doc());
      ghost var replies0 := restTemplate.replies;
      thrown := None;
      if HasText(flowCreateWebhookEndpoint) {
        var payload := map["user_id" := JsonText(userId)];
        payload := payload["flow_id" := JsonText(flow.id)];
        payload := payload["function" := JsonText(flow.code)];
        payload := payload["packages" := JsonList(flow.packages)];
        var response := restTemplate.PostForEntity(flowCreateWebhookEndpoint.value, payload);
        thrown := CallFailure(response, Some(Endpoint1));
        if thrown.Some? {
          return;
        }
        FanOutAfterSuccess(calls[0], calls[1..], replies0);
        assert calls == [calls[0]] + calls[1..];
      }
      if HasText(flowCreateWebhookEndpoint2) {
        var payload := map["flow_id" := JsonText(flow.id)];
        payload := payload["function" := JsonText(flow.code)];
        payload := payload["packages" := JsonList(flow.packages)];
        var response := restTemplate.PostForEntity(flowCreateWebhookEndpoint2.value, payload);
        thrown := CallFailure(response, Some(Endpoint2));
      }
    }

    method NotifyExternalOnDelete(flow: DataFlow) returns (thrown: Option<Exception>)
      requires userRepository.Valid()
      modifies restTemplate
      ensures var calls := DeleteCalls(flowDeleteWebhookEndpoint, flowDeleteWebhookEndpoint2,
                                       NotifiedUserId(userRepository.docs, flow.Doc()), flow.Doc());
              var d := FanOut(calls, old(restTemplate.replies));
              thrown == d.failure &&
              restTemplate.sent == old(restTemplate.sent) + Requests(calls)[..d.made] &&
              restTemplate.replies == Drop(old(restTemplate.replies), d.made)
    {
      var userId := if flow.GetUserIdAsString().Some? then flow.GetUserIdAsString()
                    else ResolveOwnerId(userRepository.docs, flow.ownerEmail);
      ghost var calls := DeleteCalls(flowDeleteWebhookEndpoint, flowDeleteWebhookEndpoint2, userId, flow.Doc());
      ghost var replies0 := restTemplate.replies;
      thrown := None;
      if HasText(flowDeleteWebhookEndpoint) {
        var payload := map["user_id" := JsonText(userId)];
        payload := payload["flow_id" := JsonText(flow.id)];
        var response := restTemplate.PostForEntity(flowDeleteWebhookEndpoint.value, payload);
        thrown := CallFailure(response, None);
        if thrown.Some? {
          return;
        }
        FanOutAfterSuccess(calls[0], calls[1..], replies0);
        assert calls == [calls[0]] + calls[1..];
      }
      if HasText(flowDeleteWebhookEndpoint2) {
        var payload := map["flow_id" := JsonText(flow.id)];
        var response := restTemplate.PostForEntity(flowDeleteWebhookEndpoint2.value, payload);
        thrown := CallFailure(response, None);
      }
    }

    /** notifyExternalOnStart and notifyExternalOnStop: the same call to
        their own endpoint. */
    method NotifyStatus(url: Option<string>, flow: DataFlow) returns (thrown: Option<Exception>)
      modifies restTemplate
      ensures var calls := StatusCalls(url, flow.Doc());
              var d := FanOut(calls, old(restTemplate.replies));
              thrown == d.failure &&
              restTemplate.sent == old(restTemplate.sent) + Requests(calls)[..d.made] &&
              restTemplate.replies == Drop(old(restTemplate.replies), d.made)
    {
      thrown := None;
      if !HasText(url) {
        return;
      }
      var payload := map["flow_id" := JsonText(flow.id)];
      var response := restTemplate.PostForEntity(url.value, payload);
      thrown := CallFailure(response, None);
    }
  }
}
