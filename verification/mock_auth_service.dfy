/** The reference provider (`MockAuthService`): a state machine over the
    signed-in user that never fails. */
module MockAuth {
  import opened Models
  import opened SignInOptions

  datatype MockAuthService = MockAuthService(currentUser: Option<UserAuthInfo>)

  /** `init(user:)`. */
  function Init(user: Option<UserAuthInfo>): (s: MockAuthService)
    ensures s.currentUser == user
  {
    MockAuthService(user)
  }

  /** `getAuthenticatedUser`: a read of the current user. */
  function GetAuthenticatedUser(s: MockAuthService): (u: Option<UserAuthInfo>)
    ensures u == s.currentUser
  {
    s.currentUser
  }

  /** `signIn(option:)`: every option signs in the mock user (`mock` stands
      for `UserAuthInfo.mock(isAnonymous: false)`), which becomes the current
      user, and reports it as not new. */
  function SignIn(s: MockAuthService, option: SignInOption, mock: UserAuthInfo): (r: (MockAuthService, ProviderReply<SignInResult>))
    ensures r.1.Returned?
    ensures r.1.value == SignInResult(mock, false)
    ensures r.0.currentUser == Some(r.1.value.user)
  {
    match option
    case Apple | Google(_) | Anonymous =>
      (MockAuthService(Some(mock)), Returned(SignInResult(mock, false)))
    case EmailLink(_, _) =>
      (MockAuthService(Some(mock)), Returned(SignInResult(mock, false)))
    case EmailLinkVerify(_) =>
      (MockAuthService(Some(mock)), Returned(SignInResult(mock, false)))
    case EmailPassword(_, _) =>
      (MockAuthService(Some(mock)), Returned(SignInResult(mock, false)))
  }

  /** `signOut`: clears the user and never throws. */
  function SignOut(s: MockAuthService): (r: (MockAuthService, ProviderReply<()>))
    ensures r.0.currentUser == None && r.1 == Returned(())
  {
    (MockAuthService(None), Returned(()))
  }

  /** `deleteAccount`: clears the user and never throws. */
  function DeleteAccount(s: MockAuthService): (r: (MockAuthService, ProviderReply<()>))
    ensures r.0.currentUser == None && r.1 == Returned(())
  {
    (MockAuthService(None), Returned(()))
  }

  /** Reading the user right after construction returns the user the mock
      was built with, and reading never changes the service. */
  lemma GetAfterInit(user: Option<UserAuthInfo>)
    ensures GetAuthenticatedUser(Init(user)) == user
  {
  }

  /** The mock ignores which option it is given: the outcome depends only on
      the mock user. */
  lemma SignInIgnoresOption(s: MockAuthService, a: SignInOption, b: SignInOption, mock: UserAuthInfo)
    ensures SignIn(s, a, mock) == SignIn(s, b, mock)
    ensures SignIn(s, a, mock).1.value.user == mock
  {
    match a
    case Apple | Google(_) | Anonymous | EmailLink(_, _) | EmailLinkVerify(_) | EmailPassword(_, _) =>
      match b
      case Apple | Google(_) | Anonymous | EmailLink(_, _) | EmailLinkVerify(_) | EmailPassword(_, _) =>
  }
}
