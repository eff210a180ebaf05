/** The registration form: three guards checked in order before the user
    service is asked to register; a successful registration leads to the
    login page, a refused one shows the service's message. */
module Registration {
  import opened Common
  import opened Entities
  import opened Repositories
  import opened ApiKeyCodec
  import opened Users
  import opened Webhooks
  import opened ErrorEvents

  const MissingFields := "Proszę wypełnić wszystkie pola"
  const PasswordsDiffer := "Hasła nie są identyczne"
  const PasswordTooShort := "Hasło musi mieć co najmniej 6 znaków"
  const Registered := "Rejestracja zakończona pomyślnie"
  const MinPasswordLength := 6
  const LoginRoute := "login"

  /** The guard chain: the message of the first guard that fails, or none
      when the form may be submitted. */
  function FormRejection(email: string, password: string, confirmPassword: string, role: Option<string>): (m: Option<string>)
    ensures (email == [] || password == [] || confirmPassword == [] || role.None?) ==> m == Some(MissingFields)
    ensures email != [] && password != [] && confirmPassword != [] && role.Some? && password != confirmPassword ==>
              m == Some(PasswordsDiffer)
    ensures email != [] && password != [] && role.Some? && password == confirmPassword && |password| < MinPasswordLength ==>
              m == Some(PasswordTooShort)
  {
    if email == [] || password == [] || confirmPassword == [] || role.None? then Some(MissingFields)
    else if password != confirmPassword then Some(PasswordsDiffer)
    else if |password| < MinPasswordLength then Some(PasswordTooShort)
    else None
  }

  /** The form is submitted exactly when every field is filled, the two
      passwords agree and the password has at least six characters. */
  lemma SubmittedIffValid(email: string, password: string, confirmPassword: string, role: Option<string>)
    ensures FormRejection(email, password, confirmPassword, role).None? <==>
              email != [] && role.Some? && password == confirmPassword && |password| >= MinPasswordLength
  {
  }

  class RegisterView {
    const userService: UserService
    var notification: Option<string>
    var navigatedTo: Option<string>

    constructor (userService: UserService)
      ensures this.userService == userService && notification.None? && navigatedTo.None?
    {
      this.userService := userService;
      notification, navigatedTo := None, None;
    }

    /** The register button. */
    method Register(email: string, password: string, confirmPassword: string, role: Option<string>,
                    randomBytes: seq<Byte>, newId: string, instant: Timestamp)
      requires userService.Valid()
      requires |randomBytes| == 32 && FreshObjectId(newId, userService.userRepository.docs.Keys)
      modifies this, userService.userRepository, userService.restTemplate, userService.errorEventPublisher
      ensures userService.Valid()
      ensures FormRejection(email, password, confirmPassword, role).Some? ==>
                notification == FormRejection(email, password, confirmPassword, role) &&
                navigatedTo == old(navigatedTo) &&
                userService.userRepository.docs == old(userService.userRepository.docs) &&
                userService.restTemplate.sent == old(userService.restTemplate.sent) &&
                userService.restTemplate.replies == old(userService.restTemplate.replies) &&
                userService.errorEventPublisher.bus == old(userService.errorEventPublisher.bus) &&
                userService.errorEventPublisher.sendThrows == old(userService.errorEventPublisher.sendThrows) &&
                userService.errorEventPublisher.log == old(userService.errorEventPublisher.log)
      ensures FormRejection(email, password, confirmPassword, role).None? &&
              EmailTaken(old(userService.userRepository.docs), Some(email)) ==>
                notification == Some(EmailTakenMessage) && navigatedTo == old(navigatedTo) &&
                userService.userRepository.docs == old(userService.userRepository.docs) &&
                userService.restTemplate.sent == old(userService.restTemplate.sent) &&
                userService.restTemplate.replies == old(userService.restTemplate.replies) &&
                userService.errorEventPublisher.bus == old(userService.errorEventPublisher.bus) &&
                userService.errorEventPublisher.sendThrows == old(userService.errorEventPublisher.sendThrows) &&
                userService.errorEventPublisher.log == old(userService.errorEventPublisher.log)
      ensures FormRejection(email, password, confirmPassword, role).None? &&
              !EmailTaken(old(userService.userRepository.docs), Some(email)) ==>
                var user := NewUser(email, userService.passwordEncoder(password), role, GenerateApiKey(randomBytes), newId);
                var d := UserCreateNotice(userService.userCreateWebhookEndpoint, user, old(userService.restTemplate.replies));
                userService.restTemplate.sent ==
                  old(userService.restTemplate.sent) + Requests(UserCreateCalls(userService.userCreateWebhookEndpoint, user))[..d.made] &&
                userService.restTemplate.replies == Drop(old(userService.restTemplate.replies), d.made) &&
                (d.failure.None? ==>
                   notification == Some(Registered) && navigatedTo == Some(LoginRoute) &&
                   userService.userRepository.docs == old(userService.userRepository.docs)[newId := user] &&
                   userService.errorEventPublisher.bus == old(userService.errorEventPublisher.bus) &&
                   userService.errorEventPublisher.sendThrows == old(userService.errorEventPublisher.sendThrows) &&
                   userService.errorEventPublisher.log == old(userService.errorEventPublisher.log)) &&
                (d.failure.Some? ==>
                   notification == Some(RegistrationFailedPrefix + Show(MessageOf(d.failure.value))) &&
                   navigatedTo == old(navigatedTo) &&
                   userService.userRepository.docs == old(userService.userRepository.docs) &&
                   userService.errorEventPublisher.bus ==
                     BusAfter(old(userService.errorEventPublisher.bus), old(userService.errorEventPublisher.sendThrows),
                              userService.errorEventPublisher.topic,
                              EventPayload(None, None, Some(newId), MessageOf(d.failure.value), instant)) &&
                   userService.errorEventPublisher.sendThrows == DropOne(old(userService.errorEventPublisher.sendThrows)) &&
                   userService.errorEventPublisher.log == LogAfter(old(userService.errorEventPublisher.log), old(userService.errorEventPublisher.sendThrows)))
    {
      var rejection := FormRejection(email, password, confirmPassword, role);
      if rejection.Some? {
        notification := rejection;
        return;
      }
      var saved, thrown := userService.RegisterUser(email, password, role, randomBytes, newId, instant);
      if thrown.None? {
        notification := Some(Registered);
        navigatedTo := Some(LoginRoute);
      } else {
        notification := thrown.value.message;
      }
    }
  }
}
