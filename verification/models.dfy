/** Plain data the session coordinator depends on: an optional value, the
    loggable parameter maps sent to the event sink, the identity snapshot
    (`UserAuthInfo`), the provider's opaque error and the pair a sign-in
    returns. */
module Models {

  /** Swift's `T?`. */
  datatype Option<+T> = None | Some(value: T)

  /** A value of a `[String: Any]` parameter map, restricted to the two kinds
      the coordinator itself writes: strings (tags, e-mails) and booleans
      (`is_new_user`). Values of any other kind cannot be represented. */
  datatype ParamValue = StrValue(s: string) | BoolValue(b: bool)

  /** A loggable `[String: Any]` dictionary. */
  type Params = map<string, ParamValue>

  /** The identity snapshot. Its loggable `eventParameters` are derived by
      code that is not part of this model, so the snapshot carries them as
      given data. */
  datatype UserAuthInfo = UserAuthInfo(
    uid: string,
    displayName: Option<string>,
    email: Option<string>,
    eventParameters: Params)

  /** An error surfaced by the authentication provider. Its loggable
      parameters are opaque to the coordinator, which only forwards them. */
  datatype ProviderError = ProviderError(eventParameters: Params)

  /** The `(user, isNewUser)` pair every completed sign-in returns. */
  datatype SignInResult = SignInResult(user: UserAuthInfo, isNewUser: bool)

  /** What a provider call did: returned a value or threw an error. This is
      the outcome parameter that stands for the provider's behaviour. */
  datatype ProviderReply<+T> = Returned(value: T) | Threw(error: ProviderError)
}
