/** UserService: registration (refused for a taken email; rolled back when
    the mandatory create webhook fails), API-key regeneration and lookup,
    and deletion, which removes the user's flows and their errors, tells
    the delete webhook and removes the user even when that call fails. */
module Users {
  import opened Common
  import opened Entities
  import opened Repositories
  import opened Webhooks
  import opened ErrorEvents
  import opened FlowErrors
  import opened ApiKeyCodec

  const DefaultRole := "USER"
  const EmailTakenMessage := "Użytkownik o podanym emailu już istnieje"
  const NoSuchUser := "Użytkownik nie istnieje"
  const NoEndpointMessage := "Brak skonfigurowanego endpointu webhook"
  const RegistrationFailedPrefix := "Rejestracja nieudana: "
  const UserEndpoint := "Endpoint"

  /** The create notification: an unconfigured endpoint is a failure of its
      own; otherwise one call whose status is checked. */
  function UserCreateNotice(url: Option<string>, user: UserDoc, replies: seq<Reply>): (d: Dispatch)
    ensures !HasText(url) ==> d == Dispatch(0, Some(IllegalState(Some(NoEndpointMessage))))
    ensures HasText(url) ==> d == FanOut(UserCreateCalls(url, user), replies)
  {
    if !HasText(url) then Dispatch(0, Some(IllegalState(Some(NoEndpointMessage))))
    else FanOut(UserCreateCalls(url, user), replies)
  }

  function UserCreateCalls(url: Option<string>, user: UserDoc): seq<Call>
  {
    Guarded(url, map["user_id" := JsonText(user.id), "API_KEY" := JsonText(user.apiKey)], Some(UserEndpoint))
  }

  function UserDeleteCalls(url: Option<string>, userId: string): seq<Call>
  {
    Guarded(url, map["user_id" := JText(userId)], None)
  }

  /** The user registration stores: the email, the encoded password, the
      one role (USER when none is chosen) and the generated key. */
  function NewUser(email: string, encoded: string, role: Option<string>, apiKey: string, id: string): (u: UserDoc)
    ensures u.roles == Some({if role.Some? then role.value else DefaultRole})
    ensures u.apiKey == Some(apiKey) && u.id == Some(id) && u.email == Some(email)
  {
    UserDoc(Some(id), Some(email), Some(encoded), Some({if role.Some? then role.value else DefaultRole}), Some(apiKey))
  }

  /** With no create endpoint configured, registration cannot succeed. */
  lemma RegistrationNeedsEndpoint(user: UserDoc, replies: seq<Reply>)
    ensures UserCreateNotice(None, user, replies).failure.Some?
  {
  }

  /** validateUser: a user with that email exists and the encoder accepts
      the password against the stored hash. */
  function PasswordValid(docs: map<string, UserDoc>, matches: (string, Option<string>) -> bool,
                         email: string, password: string): (ok: bool)
    requires UserValid(docs)
    ensures !EmailTaken(docs, Some(email)) ==> !ok
    ensures ok ==> exists k :: k in docs && docs[k].email == Some(email) && matches(password, docs[k].password)
  {
    var u := UserByEmail(docs, Some(email));
    u.Some? && matches(password, u.value.password)
  }

  /** A freshly registered user can log in with the password given at
      registration, whenever the encoder accepts its own hashes. */
  lemma RegisteredUserCanLogIn(docs: map<string, UserDoc>, matches: (string, Option<string>) -> bool,
                               encode: string -> string, email: string, password: string,
                               role: Option<string>, apiKey: string, newId: string)
    requires UserValid(docs) && !EmailTaken(docs, Some(email)) && newId !in docs
    requires matches(password, Some(encode(password)))
    ensures UserValid(docs[newId := NewUser(email, encode(password), role, apiKey, newId)])
    ensures PasswordValid(docs[newId := NewUser(email, encode(password), role, apiKey, newId)], matches, email, password)
  {
    var user := NewUser(email, encode(password), role, apiKey, newId);
    var after := docs[newId := user];
    assert UserValid(after);
    var u := UserByEmail(after, Some(email));
    assert after[newId].email == Some(email);
    assert u.Some?;
    assert u.value.id == Some(newId);
  }

  /** The flows a user id owns: none when the id is not an ObjectId. */
  function OwnedFlows(docs: map<string, FlowDoc>, userId: string): (owned: set<string>)
    ensures owned <= docs.Keys
    ensures ParseObjectId(userId).None? ==> owned == {}
  {
    if ParseObjectId(userId).Some? then FlowsOwnedBy(docs, ParseObjectId(userId).value) else {}
  }

  /** Flow ids as the nullable ids error records carry. */
  function AsFlowIds(ids: set<string>): (r: set<Option<string>>)
    ensures forall x :: x in r <==> x.Some? && x.value in ids
  {
    set k | k in ids :: Some(k)
  }

  /** The flow ids of a list, as error records carry them. */
  function ListedFlowIds(flows: seq<string>): (r: set<Option<string>>)
    ensures forall x :: x in r <==> x.Some? && x.value in flows
  {
    if flows == [] then {} else ListedFlowIds(flows[..|flows| - 1]) + {Some(flows[|flows| - 1])}
  }

  class UserService {
    const userRepository: UserRepository
    const passwordEncoder: string -> string
    const passwordMatches: (string, Option<string>) -> bool
    const restTemplate: RestTemplate
    const errorEventPublisher: ErrorEventPublisher
    const dataFlowRepository: FlowRepository
    const flowErrorService: FlowErrorService
    const userCreateWebhookEndpoint: Option<string>
    const userDeleteWebhookEndpoint: Option<string>

    ghost predicate Valid()
      reads userRepository, dataFlowRepository
    {
      userRepository.Valid() && dataFlowRepository.Valid()
    }

    constructor (userRepository: UserRepository, passwordEncoder: string -> string,
                 passwordMatches: (string, Option<string>) -> bool,
                 restTemplate: RestTemplate, errorEventPublisher: ErrorEventPublisher,
                 dataFlowRepository: FlowRepository, flowErrorService: FlowErrorService,
                 create: Option<string>, delete: Option<string>)
      ensures this.userRepository == userRepository && this.passwordEncoder == passwordEncoder
      ensures this.passwordMatches == passwordMatches
      ensures this.restTemplate == restTemplate && this.errorEventPublisher == errorEventPublisher
      ensures this.dataFlowRepository == dataFlowRepository && this.flowErrorService == flowErrorService
      ensures userCreateWebhookEndpoint == create && userDeleteWebhookEndpoint == delete
    {
      this.userRepository, this.passwordEncoder, this.passwordMatches := userRepository, passwordEncoder, passwordMatches;
      this.restTemplate, this.errorEventPublisher := restTemplate, errorEventPublisher;
      this.dataFlowRepository, this.flowErrorService := dataFlowRepository, flowErrorService;
      userCreateWebhookEndpoint, userDeleteWebhookEndpoint := create, delete;
    }

    /** The user with that email, if any. */
    method FindByEmail(email: string) returns (user: Option<User>)
      requires Valid()
      ensures user.Some? <==> EmailTaken(userRepository.docs, Some(email))
      ensures user.Some? ==> fresh(user.value) && user.value.Doc().email == Some(email) &&
                             user.value.Doc() in userRepository.docs.Values
    {
      user := userRepository.FindByEmail(Some(email));
    }

    method ValidateUser(email: string, password: string) returns (ok: bool)
      requires Valid()
      ensures ok == PasswordValid(userRepository.docs, passwordMatches, email, password)
    {
      var userOpt := userRepository.FindByEmail(Some(email));
      if userOpt.None? {
        return false;
      }
      ok := passwordMatches(password, userOpt.value.password);
    }

    /** Registers a new user under `newId` with a key made from
        `randomBytes`; rolls the insert back, publishes and throws when the
        create webhook fails. */
    method RegisterUser(email: string, password: string, role: Option<string>,
                        randomBytes: seq<Byte>, newId: string, instant: Timestamp)
      returns (savedUser: Option<User>, thrown: Option<Exception>)
      requires Valid()
      requires |randomBytes| == 32
      requires FreshObjectId(newId, userRepository.docs.Keys)
      modifies userRepository, restTemplate, errorEventPublisher
      ensures Valid()
      ensures thrown.None? <==> savedUser.Some?
      ensures thrown.Some? ==> thrown.value.IllegalArgument? && userRepository.docs == old(userRepository.docs)
      ensures thrown.None? ==> savedUser.value.Doc().email == Some(email) &&
                               userRepository.docs == old(userRepository.docs)[newId := savedUser.value.Doc()]
      ensures EmailTaken(old(userRepository.docs), Some(email)) ==>
                thrown == Some(IllegalArgument(Some(EmailTakenMessage))) &&
                userRepository.docs == old(userRepository.docs) &&
                restTemplate.sent == old(restTemplate.sent) &&
                restTemplate.replies == old(restTemplate.replies) &&
                errorEventPublisher.bus == old(errorEventPublisher.bus) &&
                errorEventPublisher.sendThrows == old(errorEventPublisher.sendThrows) &&
                errorEventPublisher.log == old(errorEventPublisher.log)
      ensures !EmailTaken(old(userRepository.docs), Some(email)) ==>
                var user := NewUser(email, passwordEncoder(password), role, GenerateApiKey(randomBytes), newId);
                var d := UserCreateNotice(userCreateWebhookEndpoint, user, old(restTemplate.replies));
                restTemplate.sent == old(restTemplate.sent) + Requests(UserCreateCalls(userCreateWebhookEndpoint, user))[..d.made] &&
                restTemplate.replies == Drop(old(restTemplate.replies), d.made) &&
                (d.failure.None? ==>
                   savedUser.Some? && savedUser.value.Doc() == user &&
                   userRepository.docs == old(userRepository.docs)[newId := user] &&
                   errorEventPublisher.bus == old(errorEventPublisher.bus) &&
                   errorEventPublisher.sendThrows == old(errorEventPublisher.sendThrows) &&
                   errorEventPublisher.log == old(errorEventPublisher.log)) &&
                (d.failure.Some? ==>
                   thrown == Some(IllegalArgument(Some(RegistrationFailedPrefix + Show(MessageOf(d.failure.value))))) &&
                   userRepository.docs == old(userRepository.docs) &&
                   errorEventPublisher.bus ==
                     BusAfter(old(errorEventPublisher.bus), old(errorEventPublisher.sendThrows),
                              errorEventPublisher.topic,
                              EventPayload(None, None, Some(newId), MessageOf(d.failure.value), instant)) &&
                   errorEventPublisher.sendThrows == DropOne(old(errorEventPublisher.sendThrows)) &&
                   errorEventPublisher.log == LogAfter(old(errorEventPublisher.log), old(errorEventPublisher.sendThrows)))
    {
      var taken := userRepository.ExistsByEmail(Some(email));
      if taken {
        return None, Some(IllegalArgument(Some(EmailTakenMessage)));
      }
      savedUser, thrown := RegisterNew(email, password, role, randomBytes, newId, instant);
    }

    /** The part of registerUser after the email check: insert, announce,
        and roll back when the announcement fails. */
    method RegisterNew(email: string, password: string, role: Option<string>,
                       randomBytes: seq<Byte>, newId: string, instant: Timestamp)
      returns (savedUser: Option<User>, thrown: Option<Exception>)
      requires Valid()
      requires |randomBytes| == 32
      requires FreshObjectId(newId, userRepository.docs.Keys)
      requires !EmailTaken(userRepository.docs, Some(email))
      modifies userRepository, restTemplate, errorEventPublisher
      ensures Valid()
      ensures thrown.None? <==> savedUser.Some?
      ensures var user := NewUser(email, passwordEncoder(password), role, GenerateApiKey(randomBytes), newId);
              var d := UserCreateNotice(userCreateWebhookEndpoint, user, old(restTemplate.replies));
              restTemplate.sent == old(restTemplate.sent) + Requests(UserCreateCalls(userCreateWebhookEndpoint, user))[..d.made] &&
              restTemplate.replies == Drop(old(restTemplate.replies), d.made) &&
              (d.failure.None? ==>
                 savedUser.Some? && savedUser.value.Doc() == user &&
                 userRepository.docs == old(userRepository.docs)[newId := user] &&
                 errorEventPublisher.bus == old(errorEventPublisher.bus) &&
                 errorEventPublisher.sendThrows == old(errorEventPublisher.sendThrows) &&
                 errorEventPublisher.log == old(errorEventPublisher.log)) &&
              (d.failure.Some? ==>
                 thrown == Some(IllegalArgument(Some(RegistrationFailedPrefix + Show(MessageOf(d.failure.value))))) &&
                 userRepository.docs == old(userRepository.docs) &&
                 errorEventPublisher.bus ==
                   BusAfter(old(errorEventPublisher.bus), old(errorEventPublisher.sendThrows),
                            errorEventPublisher.topic,
                            EventPayload(None, None, Some(newId), MessageOf(d.failure.value), instant)) &&
                 errorEventPublisher.sendThrows == DropOne(old(errorEventPublisher.sendThrows)) &&
                 errorEventPublisher.log == LogAfter(old(errorEventPublisher.log), old(errorEventPublisher.sendThrows)))
    {
      ghost var docs0 := userRepository.docs;
      ghost var replies0 := restTemplate.replies;
      var encoded := passwordEncoder(password);
      var key := GenerateApiKey(randomBytes);
      ghost var expected := NewUser(email, encoded, role, key, newId);
      ghost var d := UserCreateNotice(userCreateWebhookEndpoint, expected, replies0);
      var user := NewUserObject(email, encoded, role, key);
      var saved := userRepository.Save(user, newId);
      assert saved.Doc() == expected;
      var failure := NotifyExternalOnCreate(saved);
      assert failure == d.failure;
      if failure.Some? {
        Compensate(newId, failure.value, instant);
        AddThenRemove(docs0, newId, expected);
        return None, Some(IllegalArgument(Some(RegistrationFailedPrefix + Show(MessageOf(failure.value)))));
      }
      return Some(saved), None;
    }

    /** The unsaved user registration builds: the email, the encoded
        password, the one role (USER when none is chosen) and the key. */
    method NewUserObject(email: string, encoded: string, role: Option<string>, apiKey: string) returns (user: User)
      ensures fresh(user)
      ensures user.Doc() == NewUser(email, encoded, role, apiKey, "").(id := None)
    {
      var roles := {if role.Some? then role.value else DefaultRole};
      user := new User();
      user.SetEmail(Some(email));
      user.SetPassword(Some(encoded));
      user.SetRoles(Some(roles));
      user.SetApiKey(Some(apiKey));
    }

    /** The rollback of a registration whose announcement failed: the new
        record is deleted and the failure published for its id. */
    method Compensate(id: string, failure: Exception, instant: Timestamp)
      requires userRepository.Valid()
      modifies userRepository, errorEventPublisher
      ensures userRepository.Valid()
      ensures userRepository.docs == old(userRepository.docs) - {id}
      ensures errorEventPublisher.bus ==
                BusAfter(old(errorEventPublisher.bus), old(errorEventPublisher.sendThrows),
                         errorEventPublisher.topic, EventPayload(None, None, Some(id), MessageOf(failure), instant))
      ensures errorEventPublisher.sendThrows == DropOne(old(errorEventPublisher.sendThrows))
      ensures errorEventPublisher.log == LogAfter(old(errorEventPublisher.log), old(errorEventPublisher.sendThrows))
    {
      userRepository.DeleteById(id);
      errorEventPublisher.Publish(None, None, Some(id), MessageOf(failure), instant);
    }

    /** Stores and returns a fresh key for the user; nothing else about the
        user changes. */
    method RegenerateApiKey(userId: string, randomBytes: seq<Byte>) returns (newApiKey: Option<string>, thrown: Option<Exception>)
      requires Valid()
      requires |randomBytes| == 32
      modifies userRepository
      ensures Valid()
      ensures userId !in old(userRepository.docs) ==>
                newApiKey.None? && thrown == Some(IllegalArgument(Some(NoSuchUser))) &&
                userRepository.docs == old(userRepository.docs)
      ensures userId in old(userRepository.docs) ==>
                thrown.None? && newApiKey == Some(GenerateApiKey(randomBytes)) &&
                userRepository.docs == old(userRepository.docs)[userId := old(userRepository.docs)[userId].(apiKey := newApiKey)] &&
                GetApiKey(userId) == newApiKey
    {
      var userOpt := userRepository.FindById(userId);
      if userOpt.None? {
        return None, Some(IllegalArgument(Some(NoSuchUser)));
      }
      var user := userOpt.value;
      var key := GenerateApiKey(randomBytes);
      user.SetApiKey(Some(key));
      var _ := userRepository.Save(user, userId);
      return Some(key), None;
    }

    /** The stored key, or null for an unknown user. */
    function GetApiKey(userId: string): (key: Option<string>)
      reads userRepository
      ensures userId !in userRepository.docs ==> key.None?
      ensures userId in userRepository.docs ==> key == userRepository.docs[userId].apiKey
    {
      if userId in userRepository.docs then userRepository.docs[userId].apiKey else None
    }

    /** Removes the errors of every flow the user owns, those flows, and the
        user; a failing delete webhook is published, not thrown. */
    method DeleteUser(userId: string, instant: Timestamp) returns (thrown: Option<Exception>)
      requires Valid()
      modifies userRepository, dataFlowRepository, flowErrorService.flowErrorRepository,
               restTemplate, errorEventPublisher
      ensures Valid()
      ensures userId !in old(userRepository.docs) ==>
                thrown == Some(IllegalArgument(Some(NoSuchUser))) &&
                userRepository.docs == old(userRepository.docs) &&
                dataFlowRepository.docs == old(dataFlowRepository.docs) &&
                flowErrorService.flowErrorRepository.errors == old(flowErrorService.flowErrorRepository.errors) &&
                restTemplate.sent == old(restTemplate.sent) &&
                restTemplate.replies == old(restTemplate.replies) &&
                errorEventPublisher.bus == old(errorEventPublisher.bus) &&
                errorEventPublisher.log == old(errorEventPublisher.log) &&
                errorEventPublisher.sendThrows == old(errorEventPublisher.sendThrows)
      ensures userId in old(userRepository.docs) ==>
                var owned := OwnedFlows(old(dataFlowRepository.docs), userId);
                var d := FanOut(UserDeleteCalls(userDeleteWebhookEndpoint, userId), old(restTemplate.replies));
                thrown.None? &&
                userRepository.docs == old(userRepository.docs) - {userId} &&
                dataFlowRepository.docs == old(dataFlowRepository.docs) - owned &&
                flowErrorService.flowErrorRepository.errors ==
                  WithoutFlows(old(flowErrorService.flowErrorRepository.errors), AsFlowIds(owned)) &&
                restTemplate.sent == old(restTemplate.sent) + Requests(UserDeleteCalls(userDeleteWebhookEndpoint, userId))[..d.made] &&
                restTemplate.replies == Drop(old(restTemplate.replies), d.made) &&
                (d.failure.None? ==> errorEventPublisher.bus == old(errorEventPublisher.bus) &&
                                     errorEventPublisher.sendThrows == old(errorEventPublisher.sendThrows) &&
                                     errorEventPublisher.log == old(errorEventPublisher.log)) &&
                (d.failure.Some? ==>
                   errorEventPublisher.bus ==
                     BusAfter(old(errorEventPublisher.bus), old(errorEventPublisher.sendThrows),
                              errorEventPublisher.topic,
                              EventPayload(None, None, Some(userId), MessageOf(d.failure.value), instant)) &&
                   errorEventPublisher.sendThrows == DropOne(old(errorEventPublisher.sendThrows)) &&
                   errorEventPublisher.log == LogAfter(old(errorEventPublisher.log), old(errorEventPublisher.sendThrows)))
    {
      var userOpt := userRepository.FindById(userId);
      if userOpt.None? {
        return Some(IllegalArgument(Some(NoSuchUser)));
      }
      var userFlows := dataFlowRepository.FindByUserId(userId);
      DeleteErrorsOfFlows(userFlows);
      var owned := set k | k in userFlows;
      assert owned == OwnedFlows(old(dataFlowRepository.docs), userId);
      dataFlowRepository.DeleteAll(owned);
      var failure := NotifyExternalOnDelete(userId);
      if failure.Some? {
        errorEventPublisher.Publish(None, None, Some(userId), MessageOf(failure.value), instant);
      }
      userRepository.DeleteById(userId);
      thrown := None;
    }

    /** The loop over the user's flows, deleting the errors of each. */
    method DeleteErrorsOfFlows(flows: seq<string>)
      modifies flowErrorService.flowErrorRepository
      ensures flowErrorService.flowErrorRepository.errors ==
                WithoutFlows(old(flowErrorService.flowErrorRepository.errors), AsFlowIds(set k | k in flows))
    {
      ghost var errors0 := flowErrorService.flowErrorRepository.errors;
      WithoutNoFlows(errors0);
      var i := 0;
      while i < |flows|
        invariant 0 <= i <= |flows|
        invariant flowErrorService.flowErrorRepository.errors == WithoutFlows(errors0, ListedFlowIds(flows[..i]))
      {
        flowErrorService.DeleteAllErrorsByFlowId(Some(flows[i]));
        WithoutFlowsTwice(errors0, ListedFlowIds(flows[..i]), {Some(flows[i])});
        assert flows[..i + 1][..i] == flows[..i];
        i := i + 1;
      }
      assert flows[..i] == flows;
      assert ListedFlowIds(flows) == AsFlowIds(set k | k in flows);
    }

    method NotifyExternalOnCreate(user: User) returns (thrown: Option<Exception>)
      modifies restTemplate
      ensures var d := UserCreateNotice(userCreateWebhookEndpoint, user.Doc(), old(restTemplate.replies));
              thrown == d.failure &&
              restTemplate.sent == old(restTemplate.sent) + Requests(UserCreateCalls(userCreateWebhookEndpoint, user.Doc()))[..d.made] &&
              restTemplate.replies == Drop(old(restTemplate.replies), d.made)
    {
      if !HasText(userCreateWebhookEndpoint) {
        return Some(IllegalState(Some(NoEndpointMessage)));
      }
      var payload := map["user_id" := JsonText(user.id)];
      payload := payload["API_KEY" := JsonText(user.apiKey)];
      var response := restTemplate.PostForEntity(userCreateWebhookEndpoint.value, payload);
      thrown := CallFailure(response, Some(UserEndpoint));
    }

    method NotifyExternalOnDelete(userId: string) returns (thrown: Option<Exception>)
      modifies restTemplate
      ensures var calls := UserDeleteCalls(userDeleteWebhookEndpoint, userId);
              var d := FanOut(calls, old(restTemplate.replies));
              thrown == d.failure &&
              restTemplate.sent == old(restTemplate.sent) + Requests(calls)[..d.made] &&
              restTemplate.replies == Drop(old(restTemplate.replies), d.made)
    {
      if !HasText(userDeleteWebhookEndpoint) {
        return None;
      }
      var payload := map["user_id" := JText(userId)];
      var response := restTemplate.PostForEntity(userDeleteWebhookEndpoint.value, payload);
      thrown := CallFailure(response, None);
    }
  }
}
