/**
 * What the two iterations of the login page share: the modes and roles,
 * the `@bu.edu` suffix rule, the live email error, the footer toggle and the
 * social-login message.
 */
module AuthCommon {
  import opened JsText

  /** The screen the login page shows. */
  datatype Mode = Login | Signup | Verify

  /** The role passed to `onLogin`. */
  datatype Role = Student | Professor

  datatype Provider = Google | GitHub

  /** What the login/signup tabs can select: never the verification screen. */
  type TabMode = m: Mode | m != Verify witness Login

  const BuSuffix: string := "@bu.edu"
  const DomainMessage: string := "Only @bu.edu email addresses are allowed"

  /** The test `validateEmail` applies: a case-sensitive suffix match. */
  predicate IsBuEmail(email: string)
  {
    EndsWith(email, BuSuffix)
  }

  /** The suffix test accepts the bare suffix and rejects "" and an upper-case domain. */
  lemma SuffixCheckExamples()
    ensures IsBuEmail("@bu.edu")
    ensures IsBuEmail("alice@bu.edu")
    ensures !IsBuEmail("")
    ensures !IsBuEmail("x@BU.EDU")
    ensures !IsBuEmail("x@bu.edu ")
  {
    assert "x@BU.EDU"[1..] != BuSuffix by { assert "x@BU.EDU"[1..][1] != BuSuffix[1]; }
    assert "x@bu.edu "[2..] != BuSuffix by { assert "x@bu.edu "[2..][0] != BuSuffix[0]; }
  }

  /** The value `validateEmail(emailValue)` stores in `emailError`. */
  function EmailCheckError(emailValue: string): (msg: string)
    ensures msg == "" <==> IsBuEmail(emailValue)
    ensures msg == "" || msg == DomainMessage
  {
    if !IsBuEmail(emailValue) then DomainMessage else ""
  }

  /** The value `handleEmailChange(value)` leaves in `emailError`. */
  function LiveEmailError(value: string): (msg: string)
    ensures value == "" ==> msg == ""
    ensures value != "" ==> (msg == "" <==> IsBuEmail(value))
    ensures msg == "" || msg == DomainMessage
  {
    if value != "" then EmailCheckError(value) else ""
  }

  /** The footer link: "Sign up" from the login screen, "Log in" from anywhere else. */
  function FooterToggle(m: Mode): (r: Mode)
    ensures r != Verify
    ensures r == Signup <==> m == Login
  {
    if m == Login then Signup else Login
  }

  /** Following the footer link twice returns to the login or signup screen one started on. */
  lemma FooterToggleTwice(m: Mode)
    requires m != Verify
    ensures FooterToggle(FooterToggle(m)) == m
  {
  }

  function ProviderName(p: Provider): string
  {
    match p
    case Google => "Google"
    case GitHub => "GitHub"
  }

  const SocialPrefix: string := "Please sign in with your Boston University (@bu.edu) "
  const SocialSuffix: string := " account. Other email addresses are not permitted."

  /** The error `handleSocialLogin(provider)` shows: it names the provider and asks for a BU account. */
  function SocialLoginMessage(p: Provider): (msg: string)
    ensures |msg| == |SocialPrefix| + |ProviderName(p)| + |SocialSuffix|
    ensures msg[..|SocialPrefix|] == SocialPrefix
    ensures msg[|SocialPrefix|..|SocialPrefix| + |ProviderName(p)|] == ProviderName(p)
    ensures msg[|msg| - |SocialSuffix|..] == SocialSuffix
  {
    SocialPrefix + ProviderName(p) + SocialSuffix
  }

  /** The two providers get different messages, so the message tells which one was chosen. */
  lemma SocialLoginMessageNamesProvider(p: Provider, q: Provider)
    ensures SocialLoginMessage(p) == SocialLoginMessage(q) <==> p == q
  {
    if p != q {
      var i := |SocialPrefix| + 1;  // both names start with "G"
      assert SocialLoginMessage(p)[i] != SocialLoginMessage(q)[i];
    }
  }
}
