/** The API-key page: the key is shown masked (bullets and its last four
    symbols) until the user toggles it visible; regenerating stores a new
    key and hides it again. */
module ApiKeyPage {
  import opened Common
  import opened Entities
  import opened Repositories
  import opened ApiKeyCodec
  import opened Users
  import opened Security

  const Bullet := '\U{2022}'
  const RegeneratedMessage := "Nowy klucz API został wygenerowany"

  /** maskApiKey: a null or short key is shown as is; otherwise every
      symbol but the last four becomes a bullet. */
  function MaskApiKey(apiKey: Option<string>): (masked: Option<string>)
    ensures apiKey.None? ==> masked.None?
    ensures apiKey.Some? && |apiKey.value| <= 4 ==> masked == apiKey
    ensures apiKey.Some? && |apiKey.value| > 4 ==>
              masked.Some? && |masked.value| == |apiKey.value| &&
              masked.value[|masked.value| - 4..] == apiKey.value[|apiKey.value| - 4..] &&
              forall i :: 0 <= i < |masked.value| - 4 ==> masked.value[i] == Bullet
  {
    if apiKey.None? || |apiKey.value| <= 4 then apiKey
    else
      var key := apiKey.value;
      Some(seq(|key| - 4, _ => Bullet) + key[|key| - 4..])
  }

  /** Masking a masked key changes nothing. */
  lemma MaskIdempotent(apiKey: Option<string>)
    ensures MaskApiKey(MaskApiKey(apiKey)) == MaskApiKey(apiKey)
  {
    if apiKey.Some? && |apiKey.value| > 4 {
      var m := MaskApiKey(apiKey).value;
      var mm := MaskApiKey(Some(m)).value;
      assert forall i :: 0 <= i < |m| ==> mm[i] == m[i];
    }
  }

  /** Two keys show the same mask exactly when they have the same length
      and the same last four symbols (for keys longer than four). */
  lemma MaskRevealsOnlyLengthAndTail(a: string, b: string)
    requires |a| > 4 && |b| > 4
    ensures MaskApiKey(Some(a)) == MaskApiKey(Some(b)) <==>
              |a| == |b| && a[|a| - 4..] == b[|b| - 4..]
  {
    var ma, mb := MaskApiKey(Some(a)).value, MaskApiKey(Some(b)).value;
    if |a| == |b| && a[|a| - 4..] == b[|b| - 4..] {
      assert forall i :: 0 <= i < |ma| ==> ma[i] == mb[i];
    }
  }

  /** What the read-only key field shows. */
  function Displayed(currentApiKey: string, isVisible: bool): string
  {
    if isVisible then currentApiKey else MaskApiKey(Some(currentApiKey)).value
  }

  class ApiKeyView {
    const userService: UserService
    /** The id of the logged-in user; the page is empty without one. */
    const currentUserId: Option<string>
    var currentApiKey: string
    var isVisible: bool
    /** The value of the key field. */
    var apiKeyField: string
    var notification: Option<string>

    ghost predicate Valid()
      reads this
    {
      apiKeyField == Displayed(currentApiKey, isVisible)
    }

    /** Builds the page for the session's user: the stored key (a null key
        reads as empty), masked. */
    constructor (userService: UserService, securityService: SecurityService)
      requires securityService.userService.Valid()
      ensures Valid() && !isVisible && notification.None? && this.userService == userService
      ensures var email := securityService.GetAuthenticatedUser();
              var users := securityService.userService.userRepository.docs;
              currentUserId.Some? <==> email.Some? && EmailTaken(users, email)
      ensures var email := securityService.GetAuthenticatedUser();
              var users := securityService.userService.userRepository.docs;
              currentUserId.Some? ==> email.Some? && EmailTaken(users, email) &&
                                      currentUserId == UserByEmail(users, email).value.id
      ensures currentUserId.Some? ==>
                var stored := userService.GetApiKey(currentUserId.value);
                currentApiKey == (if stored.Some? then stored.value else "")
    {
      this.userService := userService;
      var user := securityService.GetCurrentUser();
      var id: Option<string> := None;
      var key := "";
      if user.Some? {
        id := user.value.id;
        var stored := userService.GetApiKey(user.value.id.value);
        key := if stored.Some? then stored.value else "";
      }
      currentUserId, currentApiKey := id, key;
      isVisible := false;
      apiKeyField := MaskApiKey(Some(key)).value;
      notification := None;
    }

    /** The eye button. */
    method ToggleVisibility()
      requires Valid()
      modifies this
      ensures Valid()
      ensures isVisible == !old(isVisible) && currentApiKey == old(currentApiKey)
      ensures isVisible ==> apiKeyField == currentApiKey
      ensures !isVisible ==> apiKeyField == MaskApiKey(Some(currentApiKey)).value
    {
      isVisible := !isVisible;
      if isVisible {
        apiKeyField := currentApiKey;
      } else {
        apiKeyField := MaskApiKey(Some(currentApiKey)).value;
      }
    }

    /** The confirm button of the regenerate dialog. */
    method ConfirmRegenerate(randomBytes: seq<Byte>)
      requires Valid() && currentUserId.Some?
      requires userService.Valid() && |randomBytes| == 32
      modifies this, userService.userRepository
      ensures Valid()
      ensures currentUserId.value in old(userService.userRepository.docs) ==>
                currentApiKey == GenerateApiKey(randomBytes) && !isVisible &&
                userService.GetApiKey(currentUserId.value) == Some(currentApiKey) &&
                notification == Some(RegeneratedMessage) &&
                userService.userRepository.docs ==
                  old(userService.userRepository.docs)[currentUserId.value :=
                    old(userService.userRepository.docs)[currentUserId.value].(apiKey := Some(currentApiKey))]
      ensures currentUserId.value !in old(userService.userRepository.docs) ==>
                currentApiKey == old(currentApiKey) && isVisible == old(isVisible) &&
                notification == Some(NoSuchUser) &&
                userService.userRepository.docs == old(userService.userRepository.docs)
    {
      var newApiKey, thrown := userService.RegenerateApiKey(currentUserId.value, randomBytes);
      if thrown.Some? {
        notification := MessageOf(thrown.value);
        return;
      }
      currentApiKey := newApiKey.value;
      isVisible := false;
      apiKeyField := MaskApiKey(newApiKey).value;
      notification := Some(RegeneratedMessage);
    }
  }
}
