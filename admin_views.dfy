/** The two administrator pages: the list of every flow with a filter on
    the owner's email (deleting goes through the flow service), and the
    user panel, which refuses to delete the "admin" account and stores USER
    when no role is ticked. */
module Admin {
  import opened Common
  import opened Entities
  import opened Repositories
  import opened Security
  import opened Flows
  import opened FlowErrors
  import opened ErrorEvents
  import opened Webhooks

  const AdminRole := "ADMIN"
  const AdminEmail := "admin"
  const DefaultRole := "USER"
  const DashboardRoute := "dashboard"
  const CannotDeleteAdmin := "Nie można usunąć konta administratora"
  const UserDeleted := "Użytkownik usunięty"
  const FlowDeleted := "Przepływ usunięty"
  const RolesUpdated := "Role użytkownika zaktualizowane"
  const NoPermission := "Brak uprawnień do tej strony"

  /** The owner-email test of the filter, on lower-cased text. */
  predicate OwnerMatches(flow: FlowDoc, filter: string)
  {
    flow.ownerEmail.Some? && Contains(ToLower(flow.ownerEmail.value), ToLower(filter))
  }

  /** updateList's selection: everything for a null or empty filter;
      otherwise the flows whose owner email contains the filter, ignoring
      case, in list order. A flow without an owner email makes the filter
      throw. */
  function FilterByEmail(flows: seq<FlowDoc>, emailFilter: Option<string>): (r: Result<seq<FlowDoc>>)
    ensures emailFilter.None? || emailFilter.value == [] ==> r == Success(flows)
    ensures r.Failure? <==> (emailFilter.Some? && emailFilter.value != [] &&
                             exists i :: 0 <= i < |flows| && flows[i].ownerEmail.None?)
    ensures r.Failure? ==> r.error == NullPointer
  {
    if emailFilter.None? || emailFilter.value == [] then Success(flows)
    else if exists i :: 0 <= i < |flows| && flows[i].ownerEmail.None? then Failure(NullPointer)
    else Success(Filter(flows, (f: FlowDoc) => OwnerMatches(f, emailFilter.value)))
  }

  /** A non-empty filter keeps exactly the matching flows, in their order. */
  lemma FilterByEmailKeepsMatches(flows: seq<FlowDoc>, filter: string)
    requires filter != []
    requires FilterByEmail(flows, Some(filter)).Success?
    ensures var shown := FilterByEmail(flows, Some(filter)).value;
            IsSubsequence(shown, flows) &&
            forall f :: f in shown <==> f in flows && OwnerMatches(f, filter)
  {
    FilterSpec(flows, (f: FlowDoc) => OwnerMatches(f, filter));
  }

  /** Narrowing the filter never shows more: every flow shown for a longer
      filter is shown for any part of it. */
  lemma LongerFilterShowsFewer(flows: seq<FlowDoc>, filter: string, part: string)
    requires part != [] && Contains(filter, part)
    requires FilterByEmail(flows, Some(filter)).Success?
    ensures FilterByEmail(flows, Some(part)).Success?
    ensures forall f :: f in FilterByEmail(flows, Some(filter)).value ==> f in FilterByEmail(flows, Some(part)).value
  {
    FilterSpec(flows, (f: FlowDoc) => OwnerMatches(f, filter));
    FilterSpec(flows, (f: FlowDoc) => OwnerMatches(f, part));
    forall f | f in flows && OwnerMatches(f, filter)
      ensures OwnerMatches(f, part)
    {
      var owner := ToLower(f.ownerEmail.value);
      var i :| 0 <= i <= |owner| && ToLower(filter) <= owner[i..];
      var j :| 0 <= j <= |filter| && part <= filter[j..];
      LowerKeepsPart(filter, part, j);
      assert ToLower(part) <= owner[i + j..];
    }
  }

  /** Lower-casing keeps a part of a string in place. */
  lemma LowerKeepsPart(s: string, part: string, j: nat)
    requires j <= |s| && part <= s[j..]
    ensures j + |part| <= |s| && ToLower(part) <= ToLower(s)[j..]
  {
    assert forall k :: 0 <= k < |part| ==> ToLower(part)[k] == LowerChar(s[j + k]);
  }

  /** The email an admin row is tested with; a user without one makes the
      test throw. */
  function DeleteRefusal(email: Option<string>): (r: Result<bool>)
    ensures email.None? ==> r == Failure(NullPointer)
    ensures email.Some? ==> r == Success(email.value == AdminEmail)
  {
    if email.None? then Failure(NullPointer) else Success(email.value == AdminEmail)
  }

  /** The roles a save stores: the ticked ones, or USER when none is. */
  function ChosenRoles(selected: set<string>): (r: set<string>)
    ensures r != {}
    ensures selected != {} ==> r == selected
    ensures selected == {} ==> r == {DefaultRole}
  {
    if selected == {} then {DefaultRole} else selected
  }

  class AdminDataFlowView {
    const dataFlowService: DataFlowService
    const securityService: SecurityService
    /** The grid's items. */
    var shown: seq<FlowDoc>
    var notification: Option<string>

    constructor (dataFlowService: DataFlowService, securityService: SecurityService)
      requires dataFlowService.Valid()
      ensures this.dataFlowService == dataFlowService && this.securityService == securityService
      ensures forall d :: d in shown <==> d in dataFlowService.dataFlowRepository.docs.Values
      ensures notification.None?
    {
      this.dataFlowService, this.securityService := dataFlowService, securityService;
      notification := None;
      new;
      var _ := UpdateList(None);
    }

    /** updateList: reloads every flow and shows the filtered ones; when the
        filter throws, the grid keeps its items. */
    method UpdateList(emailFilter: Option<string>) returns (thrown: Option<Exception>)
      requires dataFlowService.Valid()
      modifies this`shown
      ensures exists all: seq<FlowDoc> ::
                (forall d :: d in all <==> d in dataFlowService.dataFlowRepository.docs.Values) &&
                var r := FilterByEmail(all, emailFilter);
                (r.Success? ==> thrown.None? && shown == r.value) &&
                (r.Failure? ==> thrown == Some(r.error) && shown == old(shown))
      ensures emailFilter.None? ==>
                thrown.None? && forall d :: d in shown <==> d in dataFlowService.dataFlowRepository.docs.Values
    {
      var allFlows := dataFlowService.FindAll();
      var r := FilterByEmail(allFlows, emailFilter);
      if r.Failure? {
        return Some(r.error);
      }
      shown := r.value;
      thrown := None;
    }

    /** The delete button of a row: the flow service's delete saga (the
        delete webhooks first, then the flow's errors and the flow), then a
        reload. A failed delete publishes the failure, throws, and leaves
        the list as it was. */
    method DeleteFlow(flow: DataFlow, instant: Timestamp) returns (thrown: Option<Exception>)
      requires dataFlowService.Valid()
      modifies this, dataFlowService.dataFlowRepository, dataFlowService.restTemplate,
               dataFlowService.errorEventPublisher, dataFlowService.flowErrorService.flowErrorRepository
      ensures dataFlowService.Valid()
      ensures var s := dataFlowService;
              var doc := flow.Doc();
              var calls := DeleteCalls(s.flowDeleteWebhookEndpoint, s.flowDeleteWebhookEndpoint2,
                                       NotifiedUserId(s.userRepository.docs, doc), doc);
              var d := FanOut(calls, old(s.restTemplate.replies));
              s.restTemplate.sent == old(s.restTemplate.sent) + Requests(calls)[..d.made] &&
              s.restTemplate.replies == Drop(old(s.restTemplate.replies), d.made) &&
              (d.failure.Some? ==>
                 thrown == Some(IllegalArgument(Some(DeleteFailedPrefix + Show(MessageOf(d.failure.value))))) &&
                 s.dataFlowRepository.docs == old(s.dataFlowRepository.docs) &&
                 s.flowErrorService.flowErrorRepository.errors == old(s.flowErrorService.flowErrorRepository.errors) &&
                 s.errorEventPublisher.bus ==
                   BusAfter(old(s.errorEventPublisher.bus), old(s.errorEventPublisher.sendThrows),
                            s.errorEventPublisher.topic,
                            EventPayload(None, doc.id, UserIdAsString(doc), MessageOf(d.failure.value), instant)) &&
                 s.errorEventPublisher.sendThrows == DropOne(old(s.errorEventPublisher.sendThrows)) &&
                 s.errorEventPublisher.log == LogAfter(old(s.errorEventPublisher.log), old(s.errorEventPublisher.sendThrows)) &&
                 shown == old(shown) && notification == old(notification)) &&
              (d.failure.None? ==>
                 thrown.None? &&
                 s.flowErrorService.flowErrorRepository.errors ==
                   WithoutFlows(old(s.flowErrorService.flowErrorRepository.errors), {doc.id}) &&
                 s.dataFlowRepository.docs == (if doc.id.Some? then old(s.dataFlowRepository.docs) - {doc.id.value}
                                               else old(s.dataFlowRepository.docs)) &&
                 s.errorEventPublisher.bus == old(s.errorEventPublisher.bus) &&
                 s.errorEventPublisher.sendThrows == old(s.errorEventPublisher.sendThrows) &&
                 s.errorEventPublisher.log == old(s.errorEventPublisher.log) &&
                 (forall f :: f in shown <==> f in s.dataFlowRepository.docs.Values) &&
                 notification == Some(FlowDeleted))
    {
      thrown := dataFlowService.Delete(flow, instant);
      if thrown.Some? {
        return;
      }
      var _ := UpdateList(None);
      notification := Some(FlowDeleted);
    }

    /** beforeEnter: anybody but an admin is sent to the dashboard and told
        the page is not theirs. */
    method BeforeEnter() returns (reroute: Option<string>)
      modifies this`notification
      ensures reroute.Some? <==> !securityService.HasRole(AdminRole)
      ensures reroute.Some? ==> reroute.value == DashboardRoute && notification == Some(NoPermission)
      ensures reroute.None? ==> notification == old(notification)
    {
      if !securityService.HasRole(AdminRole) {
        notification := Some(NoPermission);
        return Some(DashboardRoute);
      }
      return None;
    }
  }

  class AdminPanelView {
    const securityService: SecurityService
    const userRepository: UserRepository
    const roleRepository: RoleRepository
    var notification: Option<string>

    constructor (securityService: SecurityService, userRepository: UserRepository, roleRepository: RoleRepository)
      ensures this.securityService == securityService && this.userRepository == userRepository
      ensures this.roleRepository == roleRepository && notification.None?
    {
      this.securityService, this.userRepository, this.roleRepository := securityService, userRepository, roleRepository;
      notification := None;
    }

    /** The delete button of a user row: the admin account is refused;
        anybody else is removed from the user store alone, leaving their
        flows, errors and webhooks untouched. */
    method DeleteUser(user: User) returns (thrown: Option<Exception>)
      requires userRepository.Valid()
      modifies this`notification, userRepository
      ensures userRepository.Valid()
      ensures user.email.None? ==>
                thrown == Some(NullPointer) && notification == old(notification) &&
                userRepository.docs == old(userRepository.docs)
      ensures user.email == Some(AdminEmail) ==>
                thrown.None? && notification == Some(CannotDeleteAdmin) &&
                userRepository.docs == old(userRepository.docs)
      ensures user.email.Some? && user.email != Some(AdminEmail) ==>
                thrown.None? && notification == Some(UserDeleted) &&
                userRepository.docs == (if user.id.Some? then old(userRepository.docs) - {user.id.value}
                                        else old(userRepository.docs))
    {
      var refused := DeleteRefusal(user.email);
      if refused.Failure? {
        return Some(refused.error);
      }
      if refused.value {
        notification := Some(CannotDeleteAdmin);
        return None;
      }
      userRepository.Delete(user);
      notification := Some(UserDeleted);
      thrown := None;
    }

    /** The save button of the role editor, for a user loaded from the
        store: stores the ticked roles, USER when none is ticked. */
    method SaveRoles(user: User, selected: set<string>)
      requires userRepository.Valid()
      requires user.id.Some? && user.id.value in userRepository.docs && user.Doc() == userRepository.docs[user.id.value]
      modifies this`notification, userRepository, user
      ensures userRepository.Valid()
      ensures user.id == old(user.id) && user.roles == Some(ChosenRoles(selected))
      ensures userRepository.docs == old(userRepository.docs)[user.id.value := old(user.Doc()).(roles := Some(ChosenRoles(selected)))]
      ensures notification == Some(RolesUpdated)
    {
      var selectedRoles := selected;
      if selectedRoles == {} {
        selectedRoles := {DefaultRole};
      }
      user.SetRoles(Some(selectedRoles));
      var _ := userRepository.Save(user, user.id.value);
      notification := Some(RolesUpdated);
    }

    /** beforeEnter: the same guard as the flow list's. */
    method BeforeEnter() returns (reroute: Option<string>)
      modifies this`notification
      ensures reroute.Some? <==> !securityService.HasRole(AdminRole)
      ensures reroute.Some? ==> reroute.value == DashboardRoute && notification == Some(NoPermission)
      ensures reroute.None? ==> notification == old(notification)
    {
      if !securityService.HasRole(AdminRole) {
        notification := Some(NoPermission);
        return Some(DashboardRoute);
      }
      return None;
    }
  }
}
