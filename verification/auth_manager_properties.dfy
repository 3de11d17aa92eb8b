/** Properties of the session coordinator that relate its operations to the
    events they record, the order of those events and the listener
    lifecycle. */
module AuthManagerProperties {
  import opened Models
  import opened SignInOptions
  import opened AuthEvents
  import opened AuthManager

  /** The tracked events among a sequence of sink calls: the events they
      record once they land in a trace. */
  function TrackedEvents(entries: seq<LogEntry>): seq<Event> {
    Events(LoggedAll(entries))
  }

  /** The events a trace records are the tracked sink calls emitted into it,
      and none at all without a logger. */
  lemma EventsOfEmitted(m: Manager, entries: seq<LogEntry>)
    ensures Events(Emitted(m, entries)) == if m.hasLogger then TrackedEvents(entries) else []
  {
  }

  lemma TrackedEventsAppend(a: seq<LogEntry>, b: seq<LogEntry>)
    ensures TrackedEvents(a + b) == TrackedEvents(a) + TrackedEvents(b)
  {
    var joined := LoggedAll(a) + LoggedAll(b);
    assert LoggedAll(a + b) == joined;
    EventsAppend(LoggedAll(a), LoggedAll(b));
    calc {
      TrackedEvents(a + b);
      Events(LoggedAll(a + b));
      Events(joined);
      Events(LoggedAll(a)) + Events(LoggedAll(b));
    }
  }

  lemma TrackedEventsCons(x: LogEntry, rest: seq<LogEntry>)
    ensures TrackedEvents([x] + rest) == (if x.TrackEvent? then [x.event] else []) + TrackedEvents(rest)
  {
    TrackedEventsAppend([x], rest);
    var one := LoggedAll([x]);
    assert one == [Logged(x)];
    assert one[1..] == [];
    assert Events(one[1..]) == [];
    assert TrackedEvents([x]) == Events(one) == (if x.TrackEvent? then [x.event] else []);
  }

  /** The group logged for a user records only its listener-success event. */
  lemma TrackedEventsOfUser(u: UserAuthInfo)
    ensures TrackedEvents(ListenerGroup(Some(u))) == [AuthListenerSuccess(u)]
  {
    var id := IdentifyUser(u.uid, u.displayName, u.email);
    var props := AddUserProperties(u.eventParameters, true);
    var ls := TrackEvent(AuthListenerSuccess(u));
    assert LoggedAll([]) == [];
    assert TrackedEvents([]) == [];
    TrackedEventsCons(ls, []);
    assert [ls] + [] == [ls];
    TrackedEventsCons(props, [ls]);
    assert [props] + [ls] == [props, ls];
    TrackedEventsCons(id, [props, ls]);
    assert [id] + ([props] + [ls]) == ListenerGroup(Some(u));
  }

  /** The group logged for nil is the empty-listener event alone. */
  lemma TrackedEventsOfNobody()
    ensures TrackedEvents(ListenerGroup(None)) == [AuthListenerEmpty]
  {
    assert LoggedAll([]) == [];
    assert TrackedEvents([]) == [];
    TrackedEventsCons(TrackEvent(AuthListenerEmpty), []);
    assert [TrackEvent(AuthListenerEmpty)] + [] == ListenerGroup(None);
  }

  /** The tracked events of a start call, a group and a closing call. */
  lemma TrackedEventsBetween(start: Event, middle: seq<LogEntry>, end: Event)
    ensures TrackedEvents([TrackEvent(start)] + middle + [TrackEvent(end)])
      == [start] + TrackedEvents(middle) + [end]
  {
    var fin := TrackEvent(end);
    TrackedEventsCons(fin, []);
    assert [fin] + [] == [fin];
    TrackedEventsAppend(middle, [fin]);
    TrackedEventsCons(TrackEvent(start), middle + [fin]);
    assert [TrackEvent(start)] + middle + [fin] == [TrackEvent(start)] + (middle + [fin]);
  }

  lemma EventsOfListenerEffect(x: Effect)
    requires !x.Logged?
    ensures Events([x]) == []
  {
    assert [x][1..] == [];
  }

  lemma ReattachRecordsNoEvent(listeners: seq<ListenerStatus>)
    ensures Events(Reattach(listeners)) == []
  {
    var n := |listeners|;
    EventsOfListenerEffect(ListenerAttached(n));
    if n > 0 {
      EventsOfListenerEffect(ListenerCancelled(n - 1));
      EventsAppend([ListenerCancelled(n - 1)], [ListenerAttached(n)]);
    }
  }

  /** The part of a trace an operation added. */
  function Added(before: Manager, after: Manager): seq<Effect>
    requires |before.trace| <= |after.trace|
  {
    after.trace[|before.trace|..]
  }

  /** A sign-in records exactly one start event and then exactly one
      success or one failure event (with the listener-success event of the
      snapshot replacement in between on success); without a logger it
      records nothing. */
  lemma SignInEvents(m: Manager, option: SignInOption, reply: ProviderReply<SignInResult>)
    ensures |m.trace| <= |SignIn(m, option, reply).state.trace|
    ensures var added := Events(Added(m, SignIn(m, option, reply).state));
      && (!m.hasLogger ==> added == [])
      && (m.hasLogger && reply.Returned? ==>
            added == [SignInStart(option), AuthListenerSuccess(reply.value.user),
                      SignInSuccess(option, reply.value.user, reply.value.isNewUser)])
      && (m.hasLogger && reply.Threw? ==> added == [SignInStart(option), SignInFail(reply.error)])
  {
    var s := SignIn(m, option, reply).state;
    match reply
    case Returned(res) =>
      var middle := ListenerGroup(Some(res.user));
      var end := SignInSuccess(option, res.user, res.isNewUser);
      FunnelEvents(m, [TrackEvent(SignInStart(option))] + middle + [TrackEvent(end)], s);
      TrackedEventsBetween(SignInStart(option), middle, end);
      TrackedEventsOfUser(res.user);
    case Threw(e) =>
      var group := [TrackEvent(SignInStart(option)), TrackEvent(SignInFail(e))];
      FunnelEvents(m, group, s);
      TrackedEventsBetween(SignInStart(option), [], SignInFail(e));
      assert [TrackEvent(SignInStart(option))] + [] + [TrackEvent(SignInFail(e))] == group;
  }

  /** The events of a trace extended by logger calls and then a listener
      re-attachment are the tracked calls alone. */
  lemma FunnelEvents(m: Manager, group: seq<LogEntry>, after: Manager)
    requires after.trace == m.trace + Emitted(m, group) + Reattach(m.listeners)
    ensures |m.trace| <= |after.trace|
    ensures Events(Added(m, after)) == if m.hasLogger then TrackedEvents(group) else []
  {
    assert Added(m, after) == Emitted(m, group) + Reattach(m.listeners);
    EventsAppend(Emitted(m, group), Reattach(m.listeners));
    ReattachRecordsNoEvent(m.listeners);
    EventsOfEmitted(m, group);
  }

  /** The listener is re-attached after the final success or failure event:
      everything a sign-in added to the trace is sink calls followed by
      listener effects, and the very last effect attaches the next
      generation. */
  lemma SignInReattachesLast(m: Manager, option: SignInOption, reply: ProviderReply<SignInResult>)
    ensures var t := SignIn(m, option, reply).state.trace;
      && |m.trace| < |t|
      && t[|t| - 1] == ListenerAttached(Generation(m))
      && forall i, j :: |m.trace| <= i < |t| && |m.trace| <= j < |t| && t[i].Logged? && !t[j].Logged? ==> i < j
  {
    var t := SignIn(m, option, reply).state.trace;
    var group := match reply
      case Returned(res) =>
        [TrackEvent(SignInStart(option))] + ListenerGroup(Some(res.user))
        + [TrackEvent(SignInSuccess(option, res.user, res.isNewUser))]
      case Threw(e) => [TrackEvent(SignInStart(option)), TrackEvent(SignInFail(e))];
    var logged := Emitted(m, group);
    assert t == m.trace + logged + Reattach(m.listeners);
    forall i, j | |m.trace| <= i < |t| && |m.trace| <= j < |t| && t[i].Logged? && !t[j].Logged?
      ensures i < j
    {
      assert forall k :: |m.trace| + |logged| <= k < |t| ==> !t[k].Logged?;
      assert forall k :: |m.trace| <= k < |m.trace| + |logged| ==> t[k].Logged?;
    }
  }

  /** What the shared sign-out/delete shape adds to the trace: sink calls
      only, and with a logger exactly the start event followed by the success
      or the failure event. */
  lemma TerminateEvents(m: Manager, start: Event, success: Event, fail: ProviderError -> Event, reply: ProviderReply<()>)
    ensures var r := Terminate(m, start, success, fail, reply).state;
      && |m.trace| <= |r.trace|
      && (forall i :: |m.trace| <= i < |r.trace| ==> r.trace[i].Logged?)
      && (!m.hasLogger ==> r.trace == m.trace)
      && (m.hasLogger && reply.Returned? ==> Events(Added(m, r)) == [start, success])
      && (m.hasLogger && reply.Threw? ==> Events(Added(m, r)) == [start, fail(reply.error)])
  {
    var r := Terminate(m, start, success, fail, reply).state;
    var end := if reply.Returned? then success else fail(reply.error);
    var group := [TrackEvent(start), TrackEvent(end)];
    assert Added(m, r) == Emitted(m, group);
    EventsOfEmitted(m, group);
    TrackedEventsBetween(start, [], end);
    assert [TrackEvent(start)] + [] + [TrackEvent(end)] == group;
  }

  /** Sign-out never touches a listener: all it adds to the trace is its
      start event and then its success or failure event. */
  lemma SignOutEvents(m: Manager, reply: ProviderReply<()>)
    ensures var r := SignOut(m, reply).state;
      && |m.trace| <= |r.trace|
      && Generation(r) == Generation(m)
      && (forall i :: |m.trace| <= i < |r.trace| ==> r.trace[i].Logged?)
      && (m.hasLogger && reply.Returned? ==> Events(Added(m, r)) == [SignOutStart, SignOutSuccess])
      && (m.hasLogger && reply.Threw? ==> Events(Added(m, r)) == [SignOutStart, SignOutFail(reply.error)])
  {
    TerminateEvents(m, SignOutStart, SignOutSuccess, e => SignOutFail(e), reply);
  }

  /** Account deletion never touches a listener: all it adds to the trace is
      its start event and then its success or failure event. */
  lemma DeleteAccountEvents(m: Manager, reply: ProviderReply<()>)
    ensures var r := DeleteAccount(m, reply).state;
      && |m.trace| <= |r.trace|
      && Generation(r) == Generation(m)
      && (forall i :: |m.trace| <= i < |r.trace| ==> r.trace[i].Logged?)
      && (m.hasLogger && reply.Returned? ==> Events(Added(m, r)) == [DeleteAccountStart, DeleteAccountSuccess])
      && (m.hasLogger && reply.Threw? ==>
            Events(Added(m, r)) == [DeleteAccountStart, DeleteAccountFail(reply.error)])
  {
    TerminateEvents(m, DeleteAccountStart, DeleteAccountSuccess, e => DeleteAccountFail(e), reply);
  }

  /** A value pushed by the live listener overwrites the snapshot directly;
      a pushed user is reported as a listener success (info), a pushed nil
      only as the empty-listener warning, never as something severe. */
  lemma PushedValueEvents(m: Manager, value: Option<UserAuthInfo>)
    ensures var r := SetCurrentAuth(m, value);
      && r.auth == value
      && |m.trace| <= |r.trace|
      && (m.hasLogger && value.None? ==>
            Events(Added(m, r)) == [AuthListenerEmpty] && Type(AuthListenerEmpty) == Warning)
      && (m.hasLogger && value.Some? ==>
            Events(Added(m, r)) == [AuthListenerSuccess(value.value)] && Type(AuthListenerSuccess(value.value)) == Info)
      && (!m.hasLogger ==> r.trace == m.trace)
  {
    var r := SetCurrentAuth(m, value);
    EventsOfEmitted(m, ListenerGroup(value));
    assert Added(m, r) == Emitted(m, ListenerGroup(value));
    if value.Some? {
      TrackedEventsOfUser(value.value);
    } else {
      TrackedEventsOfNobody();
    }
  }

  /** Every public sign-in wrapper enters the funnel with the option naming
      its own method and the caller's data, and returns what the funnel
      returns. */
  lemma SignInWrappersFunnel(
    m: Manager, reply: ProviderReply<SignInResult>,
    clientId: string, email: string, link: string, url: string, password: string)
    ensures SignInApple(m, reply) == SignIn(m, Apple, reply)
    ensures SignInGoogle(m, clientId, reply) == SignIn(m, Google(clientId), reply)
    ensures SignInEmailLinkVerify(m, url, reply) == SignIn(m, EmailLinkVerify(url), reply)
    ensures SignInWithEmailPassword(m, email, password, reply) == SignIn(m, EmailPassword(email, password), reply)
    ensures SignInAnonymously(m, reply) == SignIn(m, Anonymous, reply)
    ensures SignInEmailLinkStart(m, email, link, reply).state == SignIn(m, EmailLink(email, link), reply).state
    ensures SignInEmailLinkStart(m, email, link, reply).outcome.Ok? <==> reply.Returned?
    ensures reply.Threw? ==> SignInEmailLinkStart(m, email, link, reply).outcome == Err(Provider(reply.error))
  {
  }

  /** The sink calls of a user's group, as trace effects. */
  lemma LoggedGroupOfUser(u: UserAuthInfo)
    ensures LoggedAll(ListenerGroup(Some(u))) == [
      Logged(IdentifyUser(u.uid, u.displayName, u.email)),
      Logged(AddUserProperties(u.eventParameters, true)),
      Logged(TrackEvent(AuthListenerSuccess(u)))]
  {
  }

  /** The sink calls of a successful sign-in, as trace effects: the start,
      the user's group and the success. */
  lemma LoggedSignInSuccess(option: SignInOption, result: SignInResult)
    ensures var u := result.user;
      LoggedAll([TrackEvent(SignInStart(option))] + ListenerGroup(Some(u))
        + [TrackEvent(SignInSuccess(option, u, result.isNewUser))]) == [
      Logged(TrackEvent(SignInStart(option))),
      Logged(IdentifyUser(u.uid, u.displayName, u.email)),
      Logged(AddUserProperties(u.eventParameters, true)),
      Logged(TrackEvent(AuthListenerSuccess(u))),
      Logged(TrackEvent(SignInSuccess(option, u, result.isNewUser)))]
  {
  }

  /** A sink call that occurs once on each side of a stretch of listener
      effects occurs twice in all. */
  lemma OnceOnEachSide(x: Effect, a: seq<Effect>, re: seq<Effect>, b: seq<Effect>)
    requires x.Logged?
    requires forall k :: 0 <= k < |re| ==> !re[k].Logged?
    requires multiset(a)[x] == 1 && multiset(b)[x] == 1
    ensures multiset(a + re + b)[x] == 2
  {
    assert x !in re;
    assert multiset(re)[x] == 0;
  }

  /** The anonymous sign-in as written, on success with a logger: the
      funnel's calls, the re-attachment, then the user's group again. */
  lemma AsWrittenTrace(m: Manager, result: SignInResult)
    requires m.hasLogger
    ensures var s := SignInAnonymouslyAsWritten(m, Returned(result)).state;
      var u := result.user;
      && |m.trace| <= |s.trace|
      && Added(m, s) == LoggedAll([TrackEvent(SignInStart(Anonymous))] + ListenerGroup(Some(u))
           + [TrackEvent(SignInSuccess(Anonymous, u, result.isNewUser))])
         + Reattach(m.listeners) + LoggedAll(ListenerGroup(Some(u)))
  {
  }

  // Traces that extend `m`'s by a successful anonymous sign-in's calls, a
  // re-attachment and the user's group once more: the shape the as-written
  // wrapper leaves.

  /** Such a trace records the listener-success event twice. */
  lemma EventsOfGroupLoggedAgain(m: Manager, result: SignInResult, s: Manager)
    requires var u := result.user;
      s.trace == m.trace
        + LoggedAll([TrackEvent(SignInStart(Anonymous))] + ListenerGroup(Some(u))
            + [TrackEvent(SignInSuccess(Anonymous, u, result.isNewUser))])
        + Reattach(m.listeners) + LoggedAll(ListenerGroup(Some(u)))
    ensures |m.trace| <= |s.trace|
    ensures var u := result.user;
      Events(Added(m, s)) == [SignInStart(Anonymous), AuthListenerSuccess(u),
                              SignInSuccess(Anonymous, u, result.isNewUser),
                              AuthListenerSuccess(u)]
  {
    var u := result.user;
    var group := ListenerGroup(Some(u));
    var success := SignInSuccess(Anonymous, u, result.isNewUser);
    var first := LoggedAll([TrackEvent(SignInStart(Anonymous))] + group + [TrackEvent(success)]);
    var re := Reattach(m.listeners);
    var second := LoggedAll(group);
    assert Added(m, s) == first + re + second;
    TrackedEventsBetween(SignInStart(Anonymous), group, success);
    TrackedEventsOfUser(u);
    ReattachRecordsNoEvent(m.listeners);
    EventsAppend(first, re);
    EventsAppend(first + re, second);
  }

  /** Such a trace holds the identify and user-property calls twice. */
  lemma CallsOfGroupLoggedAgain(m: Manager, result: SignInResult, s: Manager)
    requires var u := result.user;
      s.trace == m.trace
        + LoggedAll([TrackEvent(SignInStart(Anonymous))] + ListenerGroup(Some(u))
            + [TrackEvent(SignInSuccess(Anonymous, u, result.isNewUser))])
        + Reattach(m.listeners) + LoggedAll(ListenerGroup(Some(u)))
    ensures |m.trace| <= |s.trace|
    ensures var u := result.user;
      && multiset(Added(m, s))[Logged(IdentifyUser(u.uid, u.displayName, u.email))] == 2
      && multiset(Added(m, s))[Logged(AddUserProperties(u.eventParameters, true))] == 2
  {
    var u := result.user;
    var group := ListenerGroup(Some(u));
    var success := SignInSuccess(Anonymous, u, result.isNewUser);
    var first := LoggedAll([TrackEvent(SignInStart(Anonymous))] + group + [TrackEvent(success)]);
    var re := Reattach(m.listeners);
    var second := LoggedAll(group);
    assert Added(m, s) == first + re + second;
    LoggedGroupOfUser(u);
    LoggedSignInSuccess(Anonymous, result);
    OnceOnEachSide(Logged(IdentifyUser(u.uid, u.displayName, u.email)), first, re, second);
    OnceOnEachSide(Logged(AddUserProperties(u.eventParameters, true)), first, re, second);
  }

  /** Such a trace ends with the attachment of the next generation followed
      by the user's group. */
  lemma TailOfGroupLoggedAgain(m: Manager, result: SignInResult, s: Manager)
    requires var u := result.user;
      s.trace == m.trace
        + LoggedAll([TrackEvent(SignInStart(Anonymous))] + ListenerGroup(Some(u))
            + [TrackEvent(SignInSuccess(Anonymous, u, result.isNewUser))])
        + Reattach(m.listeners) + LoggedAll(ListenerGroup(Some(u)))
    ensures |m.trace| + 4 <= |s.trace|
    ensures s.trace[|s.trace| - 4] == ListenerAttached(Generation(m))
    ensures s.trace[|s.trace| - 3..] == LoggedAll(ListenerGroup(Some(result.user)))
  {
    var u := result.user;
    var re := Reattach(m.listeners);
    var second := LoggedAll(ListenerGroup(Some(u)));
    LoggedGroupOfUser(u);
    assert |second| == 3;
    assert re[|re| - 1] == ListenerAttached(Generation(m));
    assert s.trace == (m.trace + LoggedAll([TrackEvent(SignInStart(Anonymous))] + ListenerGroup(Some(u))
            + [TrackEvent(SignInSuccess(Anonymous, u, result.isNewUser))]) + re) + second;
  }

  /** As written, an anonymous sign-in logs the whole identity-tracking group
      for the new user twice: the identify and user-property calls and the
      listener-success event appear once inside the funnel and once more
      after it, following the listener re-attachment. */
  lemma AnonymousSignInAsWrittenLogsTwice(m: Manager, result: SignInResult)
    requires m.hasLogger
    ensures var s := SignInAnonymouslyAsWritten(m, Returned(result)).state;
      var u := result.user;
      && |m.trace| + 4 <= |s.trace|
      && Events(Added(m, s)) == [SignInStart(Anonymous), AuthListenerSuccess(u),
                                 SignInSuccess(Anonymous, u, result.isNewUser),
                                 AuthListenerSuccess(u)]
      && multiset(Events(Added(m, s)))[AuthListenerSuccess(u)] == 2
      && multiset(Added(m, s))[Logged(IdentifyUser(u.uid, u.displayName, u.email))] == 2
      && multiset(Added(m, s))[Logged(AddUserProperties(u.eventParameters, true))] == 2
      && s.trace[|s.trace| - 4] == ListenerAttached(Generation(m))
      && s.trace[|s.trace| - 3..] == LoggedAll(ListenerGroup(Some(u)))
  {
    var s := SignInAnonymouslyAsWritten(m, Returned(result)).state;
    EventsOfGroupLoggedAgain(m, result, s);
    CallsOfGroupLoggedAgain(m, result, s);
    TailOfGroupLoggedAgain(m, result, s);
  }

  /** Through the funnel alone, an anonymous sign-in logs each event once,
      like every other sign-in method. */
  lemma AnonymousSignInLogsOnce(m: Manager, result: SignInResult)
    requires m.hasLogger
    ensures var s := SignInAnonymously(m, Returned(result)).state;
      && |m.trace| <= |s.trace|
      && multiset(Events(Added(m, s)))[AuthListenerSuccess(result.user)] == 1
      && multiset(Events(Added(m, s)))[SignInStart(Anonymous)] == 1
      && multiset(Events(Added(m, s)))[SignInSuccess(Anonymous, result.user, result.isNewUser)] == 1
  {
    SignInEvents(m, Anonymous, Returned(result));
  }

  /** A coordinator built over a provider with nobody signed in reports no
      session and refuses an identifier. */
  lemma SignedOutAtConstruction(hasLogger: bool)
    ensures Init(None, hasLogger).auth == None
    ensures GetAuthId(Init(None, hasLogger)) == Err(NotSignedIn)
  {
  }
}
