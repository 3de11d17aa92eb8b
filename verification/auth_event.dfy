/** The coordinator's event taxonomy and its three projections: a stable
    name, an optional parameter map and a severity. */
module AuthEvents {
  import opened Models
  import opened SignInOptions

  const IsNewUserKey: string := "is_new_user"

  /** How an event is reported to the sink. */
  datatype Severity = Info | Warning | Severe

  datatype Event =
    | AuthListenerSuccess(user: UserAuthInfo)
    | AuthListenerEmpty
    | SignInStart(option: SignInOption)
    | SignInSuccess(option: SignInOption, user: UserAuthInfo, isNewUser: bool)
    | SignInFail(error: ProviderError)
    | SignOutStart
    | SignOutSuccess
    | SignOutFail(error: ProviderError)
    | DeleteAccountStart
    | DeleteAccountSuccess
    | DeleteAccountFail(error: ProviderError)
    // Cases the coordinator declares but never emits.
    | SignInEmailStart(email: string)
    | SignInEmailSuccess(email: string)
    | SignInEmailFail(error: ProviderError)
    | SignInEmailVerifyStart
    | SignInEmailVerifySuccess(user: UserAuthInfo, isNewUser: bool)
    | SignInEmailVerifyFail(error: ProviderError)
    | SignInEmailPasswordStart(email: string)
    | SignInEmailPasswordSuccess(user: UserAuthInfo, isNewUser: bool)
    | SignInEmailPasswordFail(error: ProviderError)

  /** The stable name the sink records an event under: the entry of the name
      table for the event's case, shared with no other case. */
  function EventName(e: Event): (r: string)
    ensures r == EventNames[CaseIndex(e)]
    ensures forall j :: 0 <= j < |EventNames| && EventNames[j] == r ==> j == CaseIndex(e)
  {
    EventNamesDistinct();
    match e
    case AuthListenerSuccess(_) => "Auth_Listener_Success"
    case AuthListenerEmpty => "Auth_Listener_Empty"
    case SignInStart(_) => "Auth_SignIn_Start"
    case SignInSuccess(_, _, _) => "Auth_SignIn_Success"
    case SignInFail(_) => "Auth_SignIn_Fail"
    case SignOutStart => "Auth_SignOut_Start"
    case SignOutSuccess => "Auth_SignOut_Success"
    case SignOutFail(_) => "Auth_SignOut_Fail"
    case DeleteAccountStart => "Auth_DeleteAccount_Start"
    case DeleteAccountSuccess => "Auth_DeleteAccount_Success"
    case DeleteAccountFail(_) => "Auth_DeleteAccount_Fail"
    case SignInEmailStart(_) => "Auth_SignInEmail_Start"
    case SignInEmailSuccess(_) => "Auth_SignInEmail_Success"
    case SignInEmailFail(_) => "Auth_SignInEmail_Fail"
    case SignInEmailVerifyStart => "Auth_SignInEmail_Verify_Start"
    case SignInEmailVerifySuccess(_, _) => "Auth_SignInEmail_Verify_Success"
    case SignInEmailVerifyFail(_) => "Auth_SignInEmail_Verify_Fail"
    case SignInEmailPasswordStart(_) => "Auth_SignInEmailPassword_Start"
    case SignInEmailPasswordSuccess(_, _) => "Auth_SignInEmailPassword_Success"
    case SignInEmailPasswordFail(_) => "Auth_SignInEmailPassword_Fail"
  }

  /** The parameters attached to an event, if any. `merge` stands for the
      dictionary merge the success case uses to fold the option's
      parameters into the user's; which side it keeps on a shared key is not
      modelled. */
  function Parameters(e: Event, merge: (Params, Params) -> Params): (r: Option<Params>)
    ensures r.None? <==>
      e.AuthListenerEmpty? || e.SignOutStart? || e.SignOutSuccess?
      || e.DeleteAccountStart? || e.DeleteAccountSuccess? || e.SignInEmailVerifyStart?
    ensures IsFailure(e) ==> r == Some(e.error.eventParameters)
    ensures e.SignInStart? ==> r == Some(EventParameters(e.option))
    ensures e.AuthListenerSuccess? ==> r == Some(e.user.eventParameters)
    ensures (e.SignInSuccess? || e.SignInEmailVerifySuccess? || e.SignInEmailPasswordSuccess?) ==>
      r.Some? && IsNewUserKey in r.value && r.value[IsNewUserKey] == BoolValue(e.isNewUser)
    ensures (e.SignInEmailStart? || e.SignInEmailSuccess? || e.SignInEmailPasswordStart?) ==>
      r == Some(map[EmailKey := StrValue(e.email)])
    ensures (e.SignInEmailVerifySuccess? || e.SignInEmailPasswordSuccess?) ==>
      && r.Some?
      && r.value.Keys == e.user.eventParameters.Keys + {IsNewUserKey}
      && forall k :: k in e.user.eventParameters && k != IsNewUserKey ==> r.value[k] == e.user.eventParameters[k]
  {
    match e
    case AuthListenerSuccess(user) => Some(user.eventParameters)
    case SignInStart(option) => Some(EventParameters(option))
    case SignInSuccess(option, user, isNewUser) =>
      Some(merge(user.eventParameters, EventParameters(option))[IsNewUserKey := BoolValue(isNewUser)])
    case SignInFail(error) => Some(error.eventParameters)
    case SignOutFail(error) => Some(error.eventParameters)
    case DeleteAccountFail(error) => Some(error.eventParameters)
    case SignInEmailStart(email) => Some(map[EmailKey := StrValue(email)])
    case SignInEmailSuccess(email) => Some(map[EmailKey := StrValue(email)])
    case SignInEmailPasswordStart(email) => Some(map[EmailKey := StrValue(email)])
    case SignInEmailFail(error) => Some(error.eventParameters)
    case SignInEmailVerifyFail(error) => Some(error.eventParameters)
    case SignInEmailPasswordFail(error) => Some(error.eventParameters)
    case SignInEmailVerifySuccess(user, isNewUser) =>
      Some(user.eventParameters[IsNewUserKey := BoolValue(isNewUser)])
    case SignInEmailPasswordSuccess(user, isNewUser) =>
      Some(user.eventParameters[IsNewUserKey := BoolValue(isNewUser)])
    case SignInEmailVerifyStart => None
    case _ => None
  }

  /** The severity the sink records an event with: severe exactly for the
      failure cases, a warning exactly for the empty listener, info
      otherwise. */
  function Type(e: Event): (r: Severity)
    ensures r == Severe <==> IsFailure(e)
    ensures r == Warning <==> e.AuthListenerEmpty?
  {
    match e
    case SignInFail(_) | SignOutFail(_) | DeleteAccountFail(_) => Severe
    case AuthListenerEmpty => Warning
    case SignInEmailFail(_) | SignInEmailVerifyFail(_) | SignInEmailPasswordFail(_) => Severe
    case _ => Info
  }

  /** The failure cases, listed independently of `Type`. */
  predicate IsFailure(e: Event) {
    || e.SignInFail? || e.SignOutFail? || e.DeleteAccountFail?
    || e.SignInEmailFail? || e.SignInEmailVerifyFail? || e.SignInEmailPasswordFail?
  }

  /** Every name, in declaration order; `CaseIndex` indexes into it. */
  const EventNames: seq<string> := [
    "Auth_Listener_Success", "Auth_Listener_Empty",
    "Auth_SignIn_Start", "Auth_SignIn_Success", "Auth_SignIn_Fail",
    "Auth_SignOut_Start", "Auth_SignOut_Success", "Auth_SignOut_Fail",
    "Auth_DeleteAccount_Start", "Auth_DeleteAccount_Success", "Auth_DeleteAccount_Fail",
    "Auth_SignInEmail_Start", "Auth_SignInEmail_Success", "Auth_SignInEmail_Fail",
    "Auth_SignInEmail_Verify_Start", "Auth_SignInEmail_Verify_Success", "Auth_SignInEmail_Verify_Fail",
    "Auth_SignInEmailPassword_Start", "Auth_SignInEmailPassword_Success", "Auth_SignInEmailPassword_Fail"]

  /** The position of an event's case in the declaration, ignoring its
      payload: two events have the same index iff they are the same case. */
  function CaseIndex(e: Event): (i: nat)
    ensures i < |EventNames|
  {
    match e
    case AuthListenerSuccess(_) => 0
    case AuthListenerEmpty => 1
    case SignInStart(_) => 2
    case SignInSuccess(_, _, _) => 3
    case SignInFail(_) => 4
    case SignOutStart => 5
    case SignOutSuccess => 6
    case SignOutFail(_) => 7
    case DeleteAccountStart => 8
    case DeleteAccountSuccess => 9
    case DeleteAccountFail(_) => 10
    case SignInEmailStart(_) => 11
    case SignInEmailSuccess(_) => 12
    case SignInEmailFail(_) => 13
    case SignInEmailVerifyStart => 14
    case SignInEmailVerifySuccess(_, _) => 15
    case SignInEmailVerifyFail(_) => 16
    case SignInEmailPasswordStart(_) => 17
    case SignInEmailPasswordSuccess(_, _) => 18
    case SignInEmailPasswordFail(_) => 19
  }

  predicate EndsWith(s: string, suffix: string) {
    |suffix| <= |s| && s[|s| - |suffix|..] == suffix
  }

  lemma EventNamesDistinct()
    ensures forall i, j :: 0 <= i < j < |EventNames| ==> EventNames[i] != EventNames[j]
  {
  }

  /** Names are injective over the cases: two events share a name iff they
      are the same case. */
  lemma EventNameIdentifiesCase(a: Event, b: Event)
    ensures EventName(a) == EventName(b) <==> CaseIndex(a) == CaseIndex(b)
  {
    EventNamesDistinct();
  }

  /** Severity policy: exactly the failure cases are severe, exactly the
      empty-listener case is a warning, everything else is info. */
  lemma SeverityPolicy(e: Event)
    ensures Type(e) == Severe <==> IsFailure(e)
    ensures Type(e) == Warning <==> e.AuthListenerEmpty?
    ensures Type(e) == Info <==> !IsFailure(e) && !e.AuthListenerEmpty?
  {
  }

  /** A name ends in `_Fail` iff it names one of the failure cases. */
  lemma FailNamesAreFailureCases()
    ensures forall i :: 0 <= i < |EventNames| ==>
      (EndsWith(EventNames[i], "_Fail") <==> i in {4, 7, 10, 13, 16, 19})
  {
  }

  /** The severity can be read off the name: an event is severe iff its name
      ends in `_Fail`, and a warning iff it is `Auth_Listener_Empty`. */
  lemma SeverityFollowsName(e: Event)
    ensures Type(e) == Severe <==> EndsWith(EventName(e), "_Fail")
    ensures Type(e) == Warning <==> EventName(e) == "Auth_Listener_Empty"
  {
    FailNamesAreFailureCases();
    EventNamesDistinct();
    assert EventNames[1] == "Auth_Listener_Empty";
  }

  /** The success event always reports the provider's `isNewUser`, whatever
      the merge did with the user's and the option's parameters, because the
      flag is written after the merge. */
  lemma SignInSuccessReportsIsNewUser(
    option: SignInOption, user: UserAuthInfo, isNewUser: bool, merge: (Params, Params) -> Params)
    ensures Parameters(SignInSuccess(option, user, isNewUser), merge).Some?
    ensures var p := Parameters(SignInSuccess(option, user, isNewUser), merge).value;
      IsNewUserKey in p && p[IsNewUserKey] == BoolValue(isNewUser)
  {
  }

  /** The start event carries exactly the option's loggable parameters. */
  lemma SignInStartCarriesOption(option: SignInOption, merge: (Params, Params) -> Params)
    ensures Parameters(SignInStart(option), merge) == Some(EventParameters(option))
  {
  }

  /** A failure event forwards the error's own parameters, whichever of the
      failure cases it is. */
  lemma FailureCarriesErrorParameters(e: Event, merge: (Params, Params) -> Params)
    requires IsFailure(e)
    ensures Parameters(e, merge) == Some(e.error.eventParameters)
  {
  }

  /** The events without a payload to log carry no parameters. */
  lemma PayloadFreeEventsHaveNoParameters(e: Event, merge: (Params, Params) -> Params)
    ensures Parameters(e, merge).None? <==>
      e.AuthListenerEmpty? || e.SignOutStart? || e.SignOutSuccess?
      || e.DeleteAccountStart? || e.DeleteAccountSuccess? || e.SignInEmailVerifyStart?
  {
  }
}
