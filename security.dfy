/** Authentication glue: the user details Spring Security logs a user in
    with (one authority "ROLE_" + upper-cased name per stored role), and the
    session-level queries the views ask (who is logged in, does that user
    hold a role, which stored user is it). The authentication context is
    state of the service: the details of the logged-in user, if any. */
module Security {
  import opened Common
  import opened Entities
  import opened Repositories
  import opened Users

  const RolePrefix := "ROLE_"
  const UserNotFoundPrefix := "Użytkownik nie znaleziony: "
  /** What the builder of Spring Security's User
      (org.springframework.security.core.userdetails.User.UserBuilder)
      rejects a null password with, before anything is built. */
  const NullPassword := "password cannot be null"
  /** What the User constructor rejects an empty username with. */
  const EmptyCredentials := "Cannot pass null or empty values to constructor"

  /** The immutable user details handed to the authentication provider;
      Spring keeps the authorities as a sorted set. */
  datatype UserDetails = UserDetails(username: string, password: string, authorities: set<string>)

  /** The granted authority of a role name. */
  function Authority(role: string): (a: string)
    ensures RolePrefix <= a && |a| == |RolePrefix| + |role|
  {
    RolePrefix + ToUpper(role)
  }

  lemma UpperCharIdempotent(c: char)
    ensures UpperChar(UpperChar(c)) == UpperChar(c)
  {
  }

  /** Two role names give the same authority exactly when they agree up to
      case. */
  lemma AuthorityIgnoresCase(r1: string, r2: string)
    ensures Authority(r1) == Authority(r2) <==> ToUpper(r1) == ToUpper(r2)
    ensures Authority(ToUpper(r1)) == Authority(r1)
  {
    if Authority(r1) == Authority(r2) {
      assert ToUpper(r1) == Authority(r1)[|RolePrefix|..];
      assert ToUpper(r2) == Authority(r2)[|RolePrefix|..];
    }
    forall i | 0 <= i < |r1|
      ensures ToUpper(ToUpper(r1))[i] == ToUpper(r1)[i]
    {
      UpperCharIdempotent(r1[i]);
    }
    assert ToUpper(ToUpper(r1)) == ToUpper(r1);
  }

  /** The authorities of a stored role set; a null set grants none. */
  function AuthoritiesOf(roles: Option<set<string>>): (a: set<string>)
    ensures roles.None? ==> a == {}
    ensures roles.Some? ==> forall x :: x in a <==> exists r :: r in roles.value && x == Authority(r)
  {
    if roles.None? then {} else set r | r in roles.value :: Authority(r)
  }

  /** The details built from a stored user found by `email`. */
  function DetailsOf(email: string, user: UserDoc): (r: Result<UserDetails>)
    ensures r.Success? <==> email != [] && user.password.Some?
    ensures r.Success? ==> r.value.username == email && Some(r.value.password) == user.password &&
                           r.value.authorities == AuthoritiesOf(user.roles)
    ensures user.password.None? ==> r == Failure(IllegalArgument(Some(NullPassword)))
    ensures user.password.Some? && email == [] ==> r == Failure(IllegalArgument(Some(EmptyCredentials)))
  {
    if user.password.None? then Failure(IllegalArgument(Some(NullPassword)))
    else if email == [] then Failure(IllegalArgument(Some(EmptyCredentials)))
    else Success(UserDetails(email, user.password.value, AuthoritiesOf(user.roles)))
  }

  /** A role check on loaded details succeeds exactly for the role names the
      user holds, up to case. */
  lemma LoadedDetailsHoldStoredRoles(email: string, user: UserDoc, role: string)
    requires DetailsOf(email, user).Success?
    ensures Authority(role) in DetailsOf(email, user).value.authorities <==>
              user.roles.Some? && exists r :: r in user.roles.value && ToUpper(r) == ToUpper(role)
  {
    var a := DetailsOf(email, user).value.authorities;
    if Authority(role) in a {
      var r :| r in user.roles.value && Authority(role) == Authority(r);
      AuthorityIgnoresCase(r, role);
    }
    if user.roles.Some? && exists r :: r in user.roles.value && ToUpper(r) == ToUpper(role) {
      var r :| r in user.roles.value && ToUpper(r) == ToUpper(role);
      AuthorityIgnoresCase(r, role);
    }
  }

  class UserDetailsService {
    const userRepository: UserRepository

    constructor (userRepository: UserRepository)
      ensures this.userRepository == userRepository
    {
      this.userRepository := userRepository;
    }

    /** loadUserByUsername: the stored user with that email, with one
        authority per role; an unknown email throws. */
    method LoadUserByUsername(email: string) returns (details: Option<UserDetails>, thrown: Option<Exception>)
      requires userRepository.Valid()
      ensures details.Some? <==> thrown.None?
      ensures !EmailTaken(userRepository.docs, Some(email)) ==>
                thrown == Some(UsernameNotFound(Some(UserNotFoundPrefix + email)))
      ensures EmailTaken(userRepository.docs, Some(email)) ==>
                var r := DetailsOf(email, UserByEmail(userRepository.docs, Some(email)).value);
                (r.Success? ==> details == Some(r.value)) && (r.Failure? ==> thrown == Some(r.error))
    {
      var userOpt := userRepository.FindByEmail(Some(email));
      if userOpt.None? {
        return None, Some(UsernameNotFound(Some(UserNotFoundPrefix + email)));
      }
      var user := userOpt.value;
      var authorities: set<string> := {};
      if user.roles.Some? {
        var left := user.roles.value;
        while left != {}
          invariant left <= user.roles.value
          invariant authorities == set r | r in user.roles.value - left :: Authority(r)
          decreases |left|
        {
          var role :| role in left;
          authorities := authorities + {Authority(role)};
          left := left - {role};
        }
      }
      assert authorities == AuthoritiesOf(user.roles);
      if user.password.None? {
        return None, Some(IllegalArgument(Some(NullPassword)));
      }
      if email == [] {
        return None, Some(IllegalArgument(Some(EmptyCredentials)));
      }
      return Some(UserDetails(email, user.password.value, authorities)), None;
    }
  }

  class SecurityService {
    const userService: UserService
    /** The authentication context: the details of the logged-in user. */
    var authenticated: Option<UserDetails>

    constructor (userService: UserService, authenticated: Option<UserDetails>)
      ensures this.userService == userService && this.authenticated == authenticated
    {
      this.userService := userService;
      this.authenticated := authenticated;
    }

    method Logout()
      modifies this
      ensures authenticated.None?
    {
      authenticated := None;
    }

    /** The username (email) of the logged-in user. */
    function GetAuthenticatedUser(): (email: Option<string>)
      reads this
      ensures email.Some? <==> authenticated.Some?
      ensures email.Some? ==> email.value == authenticated.value.username
    {
      if authenticated.Some? then Some(authenticated.value.username) else None
    }

    /** hasRole: some authority of the logged-in user is "ROLE_" followed by
        the role name upper-cased; nobody logged in holds no role. */
    predicate HasRole(role: string)
      reads this
      ensures HasRole(role) ==> authenticated.Some?
      ensures HasRole(role) ==> exists a :: a in authenticated.value.authorities && RolePrefix <= a
    {
      authenticated.Some? && Authority(role) in authenticated.value.authorities
    }

    /** Asking for a role in any case gives the same answer. */
    lemma HasRoleIgnoresCase(role: string)
      ensures HasRole(role) == HasRole(ToUpper(role))
    {
      AuthorityIgnoresCase(role, role);
    }

    /** The stored user behind the session, or null. */
    method GetCurrentUser() returns (user: Option<User>)
      requires userService.Valid()
      ensures user.Some? <==> authenticated.Some? &&
                              EmailTaken(userService.userRepository.docs, Some(authenticated.value.username))
      ensures user.Some? ==> fresh(user.value) &&
                             user.value.Doc() == UserByEmail(userService.userRepository.docs, Some(authenticated.value.username)).value
    {
      var emailOpt := GetAuthenticatedUser();
      if emailOpt.Some? {
        user := userService.FindByEmail(emailOpt.value);
        return;
      }
      return None;
    }
  }
}
