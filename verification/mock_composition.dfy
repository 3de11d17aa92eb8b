/** The coordinator wired to the reference provider: the provider's replies
    are no longer parameters but what the mock computes, and the two views of
    "who is signed in" stay in agreement. */
module MockComposition {
  import opened Models
  import opened SignInOptions
  import AuthManager
  import MockAuth

  datatype System = System(manager: AuthManager.Manager, service: MockAuth.MockAuthService)

  /** The coordinator's snapshot is the provider's current user. */
  predicate InSync(sys: System) {
    sys.manager.auth == sys.service.currentUser
  }

  /** Build the mock, then the coordinator over it. */
  function Start(user: Option<UserAuthInfo>, hasLogger: bool): (sys: System)
    ensures InSync(sys) && AuthManager.Valid(sys.manager)
    ensures sys.manager.auth == user
  {
    var service := MockAuth.Init(user);
    System(AuthManager.Init(MockAuth.GetAuthenticatedUser(service), hasLogger), service)
  }

  /** A sign-in through the coordinator against the mock: it always succeeds
      with a user that is not new, and afterwards the coordinator holds
      exactly the provider's current user, whatever it held before. */
  function SignIn(sys: System, option: SignInOption, mock: UserAuthInfo): (r: (System, AuthManager.Outcome<SignInResult>))
    ensures InSync(r.0)
    ensures r.1 == AuthManager.Ok(SignInResult(mock, false))
    ensures AuthManager.Valid(sys.manager) ==> AuthManager.Valid(r.0.manager)
  {
    var (service, reply) := MockAuth.SignIn(sys.service, option, mock);
    var step := AuthManager.SignIn(sys.manager, option, reply);
    (System(step.state, service), step.outcome)
  }

  /** Sign-out against the mock: both sides end signed out. */
  function SignOut(sys: System): (r: (System, AuthManager.Outcome<()>))
    ensures InSync(r.0) && r.0.manager.auth == None
    ensures r.1 == AuthManager.Ok(())
    ensures AuthManager.Valid(sys.manager) ==> AuthManager.Valid(r.0.manager)
  {
    var (service, reply) := MockAuth.SignOut(sys.service);
    var step := AuthManager.SignOut(sys.manager, reply);
    (System(step.state, service), step.outcome)
  }

  /** Account deletion against the mock: both sides end signed out. */
  function DeleteAccount(sys: System): (r: (System, AuthManager.Outcome<()>))
    ensures InSync(r.0) && r.0.manager.auth == None
    ensures r.1 == AuthManager.Ok(())
    ensures AuthManager.Valid(sys.manager) ==> AuthManager.Valid(r.0.manager)
  {
    var (service, reply) := MockAuth.DeleteAccount(sys.service);
    var step := AuthManager.DeleteAccount(sys.manager, reply);
    (System(step.state, service), step.outcome)
  }

  /** The live listener delivering the provider's current user brings the
      coordinator back in sync, whatever it held before. */
  function Deliver(sys: System): (r: System)
    ensures InSync(r) && r.service == sys.service
    ensures r.manager.listeners == sys.manager.listeners
  {
    System(AuthManager.SetCurrentAuth(sys.manager, MockAuth.GetAuthenticatedUser(sys.service)), sys.service)
  }
}
