/** The session coordinator (`AuthManager`) as a pure state machine.

    The state is the current snapshot, the listener handles created so far
    (indexed by generation; the last one is the live handle) and a trace of
    everything observable the coordinator did, in order: the calls it made
    on the event sink and the listener cancellations and attachments. The
    provider's behaviour in each operation is a `ProviderReply` parameter. */
module AuthManager {
  import opened Models
  import opened SignInOptions
  import opened AuthEvents

  /** What a public operation throws: the coordinator's own `notSignedIn`, or
      the provider's error passed through unchanged. */
  datatype AuthError = NotSignedIn | Provider(error: ProviderError)

  /** A returned value or a thrown error. */
  datatype Outcome<+T> = Ok(value: T) | Err(error: AuthError)

  /** One call on the event sink. */
  datatype LogEntry =
    | IdentifyUser(userId: string, name: Option<string>, email: Option<string>)
    | AddUserProperties(dict: Params, isHighPriority: bool)
    | TrackEvent(event: Event)

  datatype ListenerStatus = Active | Cancelled

  /** One observable step of the coordinator. */
  datatype Effect =
    | Logged(entry: LogEntry)
    | ListenerCancelled(generation: nat)
    | ListenerAttached(generation: nat)

  /** `hasLogger` is false when no logger was injected; `listeners[g]` is the
      status of the listener task created as the `g`-th one. */
  datatype Manager = Manager(
    hasLogger: bool,
    auth: Option<UserAuthInfo>,
    listeners: seq<ListenerStatus>,
    trace: seq<Effect>)

  /** The state after an operation together with what it returned or threw. */
  datatype Step<+T> = Step(state: Manager, outcome: Outcome<T>)

  /** How many listener tasks have been created. */
  function Generation(m: Manager): nat {
    |m.listeners|
  }

  /** Exactly the newest listener is live; every earlier one was cancelled. */
  predicate OneLiveListener(listeners: seq<ListenerStatus>) {
    && |listeners| > 0
    && listeners[|listeners| - 1] == Active
    && forall g :: 0 <= g < |listeners| - 1 ==> listeners[g] == Cancelled
  }

  /** The coordinator's invariant between operations. */
  predicate Valid(m: Manager) {
    OneLiveListener(m.listeners)
  }

  /** How many listeners are live. */
  function CountActive(listeners: seq<ListenerStatus>): nat {
    if |listeners| == 0 then 0
    else CountActive(listeners[..|listeners| - 1]) + (if listeners[|listeners| - 1] == Active then 1 else 0)
  }

  lemma {:induction false} AllCancelledCountsZero(listeners: seq<ListenerStatus>)
    requires forall g :: 0 <= g < |listeners| ==> listeners[g] == Cancelled
    ensures CountActive(listeners) == 0
  {
    if |listeners| > 0 {
      AllCancelledCountsZero(listeners[..|listeners| - 1]);
    }
  }

  /** Under the invariant exactly one listener is live. */
  lemma ValidHasExactlyOneListener(m: Manager)
    requires Valid(m)
    ensures CountActive(m.listeners) == 1
  {
    AllCancelledCountsZero(m.listeners[..|m.listeners| - 1]);
  }

  /** The sink calls `entries` as they land in the trace of a coordinator
      that has a logger. */
  function LoggedAll(entries: seq<LogEntry>): seq<Effect> {
    seq(|entries|, i requires 0 <= i < |entries| => Logged(entries[i]))
  }

  /** The sink calls `entries` as they land in the trace: nothing when no
      logger was injected. */
  function Emitted(m: Manager, entries: seq<LogEntry>): seq<Effect> {
    if m.hasLogger then LoggedAll(entries) else []
  }

  /** The listener effects of re-attaching: cancel the live handle, if there
      is one, then attach the next generation. */
  function Reattach(listeners: seq<ListenerStatus>): seq<Effect> {
    (if |listeners| > 0 then [ListenerCancelled(|listeners| - 1)] else []) + [ListenerAttached(|listeners|)]
  }

  /** The identity-tracking group a snapshot replacement logs. */
  function ListenerGroup(value: Option<UserAuthInfo>): seq<LogEntry> {
    match value
    case Some(u) => [
      IdentifyUser(u.uid, u.displayName, u.email),
      AddUserProperties(u.eventParameters, true),
      TrackEvent(AuthListenerSuccess(u))]
    case None => [TrackEvent(AuthListenerEmpty)]
  }

  /** `logger?.…`: one sink call, dropped when there is no logger. */
  function Log(m: Manager, entry: LogEntry): (r: Manager)
    ensures r.auth == m.auth && r.listeners == m.listeners && r.hasLogger == m.hasLogger
    ensures r.trace == m.trace + Emitted(m, [entry])
  {
    if m.hasLogger then m.(trace := m.trace + [Logged(entry)]) else m
  }

  /** `addAuthListener`: cancel the live handle (if any), then start the next
      generation. The snapshot and the sink are untouched. */
  function AddAuthListener(m: Manager): (r: Manager)
    ensures r.auth == m.auth && r.hasLogger == m.hasLogger
    ensures Generation(r) == Generation(m) + 1
    ensures r.listeners[Generation(m)] == Active
    ensures Generation(m) > 0 ==> r.listeners[Generation(m) - 1] == Cancelled
    ensures forall g :: 0 <= g < Generation(m) - 1 ==> r.listeners[g] == m.listeners[g]
    ensures r.trace == m.trace + Reattach(m.listeners)
    ensures (Valid(m) || Generation(m) == 0) ==> Valid(r)
  {
    var n := |m.listeners|;
    var cancelled :=
      if n == 0 then m
      else m.(listeners := m.listeners[n - 1 := Cancelled], trace := m.trace + [ListenerCancelled(n - 1)]);
    cancelled.(listeners := cancelled.listeners + [Active], trace := cancelled.trace + [ListenerAttached(n)])
  }

  /** `init(service:logger:)`: the snapshot is what the provider reports now;
      one listener is attached and nothing is logged. */
  function Init(current: Option<UserAuthInfo>, hasLogger: bool): (m: Manager)
    ensures m.auth == current && m.hasLogger == hasLogger
    ensures Valid(m) && Generation(m) == 1
    ensures m.trace == [ListenerAttached(0)]
  {
    AddAuthListener(Manager(hasLogger, current, [], []))
  }

  /** `getAuthId`: the current identifier, or `notSignedIn` when signed out. */
  function GetAuthId(m: Manager): (r: Outcome<string>)
    ensures r.Err? <==> m.auth.None?
    ensures r.Err? ==> r.error == NotSignedIn
    ensures r.Ok? ==> r.value == m.auth.value.uid
  {
    match m.auth
    case None => Err(NotSignedIn)
    case Some(u) => Ok(u.uid)
  }

  /** `setCurrentAuth`: replace the snapshot, then log the identity-tracking
      group for a user, or only the empty-listener warning for nil. This is
      also what a value pushed by the live listener does. */
  function SetCurrentAuth(m: Manager, value: Option<UserAuthInfo>): (r: Manager)
    ensures r.auth == value
    ensures r.listeners == m.listeners && r.hasLogger == m.hasLogger
    ensures r.trace == m.trace + Emitted(m, ListenerGroup(value))
  {
    var m1 := m.(auth := value);
    match value
    case Some(u) =>
      var m2 := Log(m1, IdentifyUser(u.uid, u.displayName, u.email));
      var m3 := Log(m2, AddUserProperties(u.eventParameters, true));
      var r := Log(m3, TrackEvent(AuthListenerSuccess(u)));
      assert Emitted(m, [IdentifyUser(u.uid, u.displayName, u.email)])
        + Emitted(m, [AddUserProperties(u.eventParameters, true)])
        + Emitted(m, [TrackEvent(AuthListenerSuccess(u))])
        == Emitted(m, ListenerGroup(value));
      r
    case None =>
      Log(m1, TrackEvent(AuthListenerEmpty))
  }

  /** The private `signIn(option:)` funnel every sign-in goes through: log
      the start, call the provider, on success replace the snapshot and log
      success, on failure log the failure and rethrow; in both cases the
      listener is re-attached last. */
  function SignIn(m: Manager, option: SignInOption, reply: ProviderReply<SignInResult>): (r: Step<SignInResult>)
    ensures r.state.hasLogger == m.hasLogger
    ensures Generation(r.state) == Generation(m) + 1
    ensures Valid(m) ==> Valid(r.state)
    ensures reply.Returned? ==>
      && r.outcome == Ok(reply.value)
      && r.state.auth == Some(reply.value.user)
      && r.state.trace == m.trace
        + Emitted(m, [TrackEvent(SignInStart(option))]
            + ListenerGroup(Some(reply.value.user))
            + [TrackEvent(SignInSuccess(option, reply.value.user, reply.value.isNewUser))])
        + Reattach(m.listeners)
    ensures reply.Threw? ==>
      && r.outcome == Err(Provider(reply.error))
      && r.state.auth == m.auth
      && r.state.trace == m.trace
        + Emitted(m, [TrackEvent(SignInStart(option)), TrackEvent(SignInFail(reply.error))])
        + Reattach(m.listeners)
  {
    var started := Log(m, TrackEvent(SignInStart(option)));
    match reply
    case Returned(result) =>
      var updated := SetCurrentAuth(started, Some(result.user));
      var done := Log(updated, TrackEvent(SignInSuccess(option, result.user, result.isNewUser)));
      assert Emitted(m, [TrackEvent(SignInStart(option))])
        + Emitted(m, ListenerGroup(Some(result.user)))
        + Emitted(m, [TrackEvent(SignInSuccess(option, result.user, result.isNewUser))])
        == Emitted(m, [TrackEvent(SignInStart(option))]
            + ListenerGroup(Some(result.user))
            + [TrackEvent(SignInSuccess(option, result.user, result.isNewUser))]);
      Step(AddAuthListener(done), Ok(result))
    case Threw(error) =>
      var failed := Log(started, TrackEvent(SignInFail(error)));
      assert Emitted(m, [TrackEvent(SignInStart(option))]) + Emitted(m, [TrackEvent(SignInFail(error))])
        == Emitted(m, [TrackEvent(SignInStart(option)), TrackEvent(SignInFail(error))]);
      Step(AddAuthListener(failed), Err(Provider(error)))
  }

  /** The shape shared by `signOut` and `deleteAccount`: log the start, call
      the provider, on success clear the snapshot and log success, on failure
      log the failure and rethrow. No listener is touched. */
  function Terminate(m: Manager, start: Event, success: Event, fail: ProviderError -> Event, reply: ProviderReply<()>): (r: Step<()>)
    ensures r.state.hasLogger == m.hasLogger && r.state.listeners == m.listeners
    ensures reply.Returned? ==>
      && r.outcome == Ok(())
      && r.state.auth == None
      && r.state.trace == m.trace + Emitted(m, [TrackEvent(start), TrackEvent(success)])
    ensures reply.Threw? ==>
      && r.outcome == Err(Provider(reply.error))
      && r.state.auth == m.auth
      && r.state.trace == m.trace + Emitted(m, [TrackEvent(start), TrackEvent(fail(reply.error))])
  {
    var started := Log(m, TrackEvent(start));
    match reply
    case Returned(_) =>
      assert Emitted(m, [TrackEvent(start)]) + Emitted(m, [TrackEvent(success)])
        == Emitted(m, [TrackEvent(start), TrackEvent(success)]);
      Step(Log(started.(auth := None), TrackEvent(success)), Ok(()))
    case Threw(error) =>
      assert Emitted(m, [TrackEvent(start)]) + Emitted(m, [TrackEvent(fail(error))])
        == Emitted(m, [TrackEvent(start), TrackEvent(fail(error))]);
      Step(Log(started, TrackEvent(fail(error))), Err(Provider(error)))
  }

  /** `signOut`. */
  function SignOut(m: Manager, reply: ProviderReply<()>): (r: Step<()>)
    ensures r.state.hasLogger == m.hasLogger && r.state.listeners == m.listeners
    ensures reply.Returned? ==>
      && r.outcome == Ok(())
      && r.state.auth == None
      && r.state.trace == m.trace + Emitted(m, [TrackEvent(SignOutStart), TrackEvent(SignOutSuccess)])
    ensures reply.Threw? ==>
      && r.outcome == Err(Provider(reply.error))
      && r.state.auth == m.auth
      && r.state.trace == m.trace + Emitted(m, [TrackEvent(SignOutStart), TrackEvent(SignOutFail(reply.error))])
  {
    Terminate(m, SignOutStart, SignOutSuccess, e => SignOutFail(e), reply)
  }

  /** `deleteAccount`. */
  function DeleteAccount(m: Manager, reply: ProviderReply<()>): (r: Step<()>)
    ensures r.state.hasLogger == m.hasLogger && r.state.listeners == m.listeners
    ensures reply.Returned? ==>
      && r.outcome == Ok(())
      && r.state.auth == None
      && r.state.trace == m.trace + Emitted(m, [TrackEvent(DeleteAccountStart), TrackEvent(DeleteAccountSuccess)])
    ensures reply.Threw? ==>
      && r.outcome == Err(Provider(reply.error))
      && r.state.auth == m.auth
      && r.state.trace == m.trace + Emitted(m, [TrackEvent(DeleteAccountStart), TrackEvent(DeleteAccountFail(reply.error))])
  {
    Terminate(m, DeleteAccountStart, DeleteAccountSuccess, e => DeleteAccountFail(e), reply)
  }

  // The public sign-in wrappers: each builds its option and enters the funnel.

  /** What a sign-in wrapper promises about the state it leaves: one more
      listener generation with the invariant kept, the earlier trace kept,
      the start event for its own option logged first after it, and the
      snapshot set to the provider's user on
      success or left unchanged on failure. */
  predicate EnteredFunnel(m: Manager, option: SignInOption, reply: ProviderReply<SignInResult>, after: Manager) {
    && after.hasLogger == m.hasLogger
    && Generation(after) == Generation(m) + 1
    && (Valid(m) ==> Valid(after))
    && |m.trace| < |after.trace|
    && after.trace[..|m.trace|] == m.trace
    && (m.hasLogger ==> after.trace[|m.trace|] == Logged(TrackEvent(SignInStart(option))))
    && (reply.Returned? ==> after.auth == Some(reply.value.user))
    && (reply.Threw? ==> after.auth == m.auth)
  }

  /** `signInApple`. */
  function SignInApple(m: Manager, reply: ProviderReply<SignInResult>): (r: Step<SignInResult>)
    ensures EnteredFunnel(m, Apple, reply, r.state)
    ensures reply.Returned? ==> r.outcome == Ok(reply.value)
    ensures reply.Threw? ==> r.outcome == Err(Provider(reply.error))
  {
    SignIn(m, Apple, reply)
  }

  /** `signInGoogle(GIDClientID:)`. */
  function SignInGoogle(m: Manager, clientId: string, reply: ProviderReply<SignInResult>): (r: Step<SignInResult>)
    ensures EnteredFunnel(m, Google(clientId), reply, r.state)
    ensures reply.Returned? ==> r.outcome == Ok(reply.value)
    ensures reply.Threw? ==> r.outcome == Err(Provider(reply.error))
  {
    SignIn(m, Google(clientId), reply)
  }

  /** `signInEmailLink_Start` discards the pair: it only reports whether the
      provider threw. */
  function SignInEmailLinkStart(m: Manager, email: string, signInLinkURL: string, reply: ProviderReply<SignInResult>): (r: Step<()>)
    ensures EnteredFunnel(m, EmailLink(email, signInLinkURL), reply, r.state)
    ensures reply.Returned? ==> r.outcome == Ok(())
    ensures reply.Threw? ==> r.outcome == Err(Provider(reply.error))
  {
    var s := SignIn(m, EmailLink(email, signInLinkURL), reply);
    match s.outcome
    case Ok(_) => Step(s.state, Ok(()))
    case Err(e) => Step(s.state, Err(e))
  }

  /** `signInEmailLink_Verify(url:)`. */
  function SignInEmailLinkVerify(m: Manager, url: string, reply: ProviderReply<SignInResult>): (r: Step<SignInResult>)
    ensures EnteredFunnel(m, EmailLinkVerify(url), reply, r.state)
    ensures reply.Returned? ==> r.outcome == Ok(reply.value)
    ensures reply.Threw? ==> r.outcome == Err(Provider(reply.error))
  {
    SignIn(m, EmailLinkVerify(url), reply)
  }

  /** `signInWithEmailPassword(email:password:)`. */
  function SignInWithEmailPassword(m: Manager, email: string, password: string, reply: ProviderReply<SignInResult>): (r: Step<SignInResult>)
    ensures EnteredFunnel(m, EmailPassword(email, password), reply, r.state)
    ensures reply.Returned? ==> r.outcome == Ok(reply.value)
    ensures reply.Threw? ==> r.outcome == Err(Provider(reply.error))
  {
    SignIn(m, EmailPassword(email, password), reply)
  }

  /** `signInAnonymously` as the source writes it: after the funnel returns,
      it replaces the snapshot a second time, so the identity-tracking group
      is logged twice, the second time after the listener was re-attached.
      On failure it is the funnel alone. */
  function SignInAnonymouslyAsWritten(m: Manager, reply: ProviderReply<SignInResult>): (r: Step<SignInResult>)
    ensures EnteredFunnel(m, Anonymous, reply, r.state)
    ensures reply.Returned? ==>
      && r.outcome == Ok(reply.value)
      && r.state.trace == m.trace
        + Emitted(m, [TrackEvent(SignInStart(Anonymous))]
            + ListenerGroup(Some(reply.value.user))
            + [TrackEvent(SignInSuccess(Anonymous, reply.value.user, reply.value.isNewUser))])
        + Reattach(m.listeners)
        + Emitted(m, ListenerGroup(Some(reply.value.user)))
    ensures reply.Threw? ==> r.outcome == Err(Provider(reply.error)) && r == SignIn(m, Anonymous, reply)
  {
    var s := SignIn(m, Anonymous, reply);
    match s.outcome
    case Ok(result) => Step(SetCurrentAuth(s.state, Some(result.user)), s.outcome)
    case Err(_) => s
  }

  /** `signInAnonymously` as the other wrappers do it: the funnel alone. */
  function SignInAnonymously(m: Manager, reply: ProviderReply<SignInResult>): (r: Step<SignInResult>)
    ensures EnteredFunnel(m, Anonymous, reply, r.state)
    ensures reply.Returned? ==> r.outcome == Ok(reply.value)
    ensures reply.Threw? ==> r.outcome == Err(Provider(reply.error))
  {
    SignIn(m, Anonymous, reply)
  }

  // ---------------------------------------------------------------------
  // The events a trace records, in order.

  function Events(trace: seq<Effect>): seq<Event> {
    if |trace| == 0 then []
    else
      (if trace[0].Logged? && trace[0].entry.TrackEvent? then [trace[0].entry.event] else [])
      + Events(trace[1..])
  }

  lemma {:induction false} EventsAppend(a: seq<Effect>, b: seq<Effect>)
    ensures Events(a + b) == Events(a) + Events(b)
  {
    if |a| == 0 {
      assert a + b == b;
    } else {
      assert (a + b)[1..] == a[1..] + b;
      EventsAppend(a[1..], b);
    }
  }
}
