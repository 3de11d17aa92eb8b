/** The closed set of sign-in methods and their two projections: a stable
    string tag and the loggable parameters, which never carry secrets. */
module SignInOptions {
  import opened Models

  const OptionKey: string := "sign_in_option"
  const EmailKey: string := "email"

  /** A sign-in method with exactly the data it needs. URLs are kept as
      strings. */
  datatype SignInOption =
    | Apple
    | Anonymous
    | Google(clientId: string)
    | EmailLink(email: string, signInLinkURL: string)
    | EmailLinkVerify(url: string)
    | EmailPassword(email: string, password: string)

  /** Every tag, in declaration order; `VariantIndex` indexes into it. */
  const Tags: seq<string> :=
    ["apple", "anonymous", "google", "emailLink", "emailLinkVerify", "emailPassword"]

  /** The position of an option's variant in the declaration, ignoring its
      data. */
  function VariantIndex(o: SignInOption): (i: nat)
    ensures i < |Tags|
  {
    match o
    case Apple => 0
    case Anonymous => 1
    case Google(_) => 2
    case EmailLink(_, _) => 3
    case EmailLinkVerify(_) => 4
    case EmailPassword(_, _) => 5
  }

  /** The stable tag naming the variant: the table entry for its variant,
      shared with no other variant. */
  function StringValue(o: SignInOption): (r: string)
    ensures r == Tags[VariantIndex(o)]
    ensures forall j :: 0 <= j < |Tags| && Tags[j] == r ==> j == VariantIndex(o)
  {
    match o
    case Apple => "apple"
    case Anonymous => "anonymous"
    case Google(_) => "google"
    case EmailLink(_, _) => "emailLink"
    case EmailLinkVerify(_) => "emailLinkVerify"
    case EmailPassword(_, _) => "emailPassword"
  }

  /** True of the variants that carry an e-mail address. */
  predicate CarriesEmail(o: SignInOption) {
    o.EmailLink? || o.EmailPassword?
  }

  /** The loggable parameters: always the tag, and the e-mail address for
      the e-mail-bearing variants; nothing else. */
  function EventParameters(o: SignInOption): (p: Params)
    ensures OptionKey in p && p[OptionKey] == StrValue(StringValue(o))
    ensures EmailKey in p <==> CarriesEmail(o)
    ensures CarriesEmail(o) ==> p[EmailKey] == StrValue(o.email)
    ensures p.Keys <= {OptionKey, EmailKey}
  {
    var params := map[OptionKey := StrValue(StringValue(o))];
    match o
    case EmailLink(email, _) => params[EmailKey := StrValue(email)]
    case EmailPassword(email, _) => params[EmailKey := StrValue(email)]
    case _ => params
  }

  /** Two options are of the same variant, whatever data they carry. */
  predicate SameVariant(a: SignInOption, b: SignInOption) {
    || (a.Apple? && b.Apple?)
    || (a.Anonymous? && b.Anonymous?)
    || (a.Google? && b.Google?)
    || (a.EmailLink? && b.EmailLink?)
    || (a.EmailLinkVerify? && b.EmailLinkVerify?)
    || (a.EmailPassword? && b.EmailPassword?)
  }

  /** The six variants have six distinct tags: the tag identifies the
      variant and nothing more. */
  lemma StringValueIdentifiesVariant(a: SignInOption, b: SignInOption)
    ensures StringValue(a) == StringValue(b) <==> SameVariant(a, b)
  {
    match a
    case Apple =>
    case Anonymous =>
    case Google(_) =>
    case EmailLink(_, _) =>
    case EmailLinkVerify(_) =>
    case EmailPassword(_, _) =>
  }

  /** The loggable parameters never reveal a secret or a link: neither the
      password, the Google client ID, the sign-in link nor the verify URL is
      a key, and the only string values present are the tag and the e-mail
      address. */
  lemma EventParametersHoldNoSecrets(o: SignInOption)
    ensures forall k :: k in EventParameters(o) ==>
      EventParameters(o)[k] == StrValue(StringValue(o))
      || (CarriesEmail(o) && EventParameters(o)[k] == StrValue(o.email))
  {
  }
}
