/** The sign-in page (`LoginPage`): the two form modes, the submit outcomes,
    and the email-verification step with its code field. The auth calls are
    given by their replies; a reply's error is its message (`""` when it has
    none, which is falsy). */
module LoginPage {
  import opened Common

  const SignInFallback: string := "Failed to sign in"
  const SignUpFallback: string := "Failed to create account"
  const UnexpectedMessage: string := "An unexpected error occurred"
  const VerifyFallback: string :=
    "Invalid verification code. If your backend uses link verification, please check your email for a verification link."
  const ResendFallback: string := "Failed to resend code"
  const CodeLength: nat := 6

  /** The characters of `s` that are ASCII digits, in order:
      `s.replace(/\D/g, '')`. */
  function Digits(s: string): (r: string)
    ensures |r| <= |s|
    ensures AllDigits(r)
    ensures forall c :: IsDigit(c) ==> multiset(r)[c] == multiset(s)[c]
    ensures |s| == 1 ==> (r == s <==> IsDigit(s[0])) && (r == [] <==> !IsDigit(s[0]))
    decreases |s|
  {
    if s == [] then []
    else
      assert s == [s[0]] + s[1..];
      (if IsDigit(s[0]) then [s[0]] else []) + Digits(s[1..])
  }

  /** Filtering a pasted code piece by piece is filtering it whole: every
      digit is kept, in the order it was typed. */
  lemma {:induction false} DigitsConcat(a: string, b: string)
    ensures Digits(a + b) == Digits(a) + Digits(b)
    decreases |a|
  {
    if a == [] {
      assert a + b == b;
    } else {
      assert (a + b)[1..] == a[1..] + b;
      DigitsConcat(a[1..], b);
    }
  }

  /** A string of digits keeps all of itself. */
  lemma {:induction false} DigitsOfDigits(s: string)
    requires AllDigits(s)
    ensures Digits(s) == s
    decreases |s|
  {
    if s != [] {
      DigitsOfDigits(s[1..]);
      assert s == [s[0]] + s[1..];
    }
  }

  /** The code field's filter: the digits of the input, at most six. */
  function Sanitize(s: string): (r: string)
    ensures AllDigits(r)
    ensures |r| <= CodeLength
    ensures IsPrefix(r, Digits(s))
    ensures |r| == if |Digits(s)| < CodeLength then |Digits(s)| else CodeLength
  {
    var d := Digits(s);
    if |d| <= CodeLength then d else d[..CodeLength]
  }

  /** Filtering the filtered code changes nothing. */
  lemma SanitizeIdempotent(s: string)
    ensures Sanitize(Sanitize(s)) == Sanitize(s)
  {
    DigitsOfDigits(Sanitize(s));
  }

  /** The page's state. `isLogin` selects sign-in over sign-up. */
  datatype Login = Login(isLogin: bool, email: string, password: string, name: string, error: string,
                         loading: bool, verificationRequired: bool, code: string)

  const Fresh: Login := Login(true, "", "", "", "", false, false, "")

  /** The verify button is enabled. */
  predicate VerifyEnabled(l: Login)
  {
    !l.loading && |l.code| == CodeLength
  }

  /** Typing into the code field. */
  function TypeCode(l: Login, input: string): Login
  {
    l.(code := Sanitize(input))
  }

  /** After typing, verification can be submitted exactly when nothing is
      loading and the input held at least six digits. */
  lemma VerifyEnabledAfterTyping(l: Login, input: string)
    ensures VerifyEnabled(TypeCode(l, input)) <==> !l.loading && |Digits(input)| >= CodeLength
  {
  }

  /** The mode toggle: flips the mode and clears the error and the name. */
  function ToggleMode(l: Login): (l': Login)
    ensures l'.isLogin == !l.isLogin && l'.error == "" && l'.name == ""
    ensures l' == l.(isLogin := l'.isLogin, error := "", name := "")
  {
    l.(isLogin := !l.isLogin, error := "", name := "")
  }

  /** "Back to Login": leaves verification, clears the code and the error and
      selects sign-in. */
  function BackToLogin(l: Login): (l': Login)
    ensures !l'.verificationRequired && l'.code == "" && l'.error == "" && l'.isLogin
    ensures l' == l.(verificationRequired := false, code := "", error := "", isLogin := true)
  {
    l.(verificationRequired := false, code := "", error := "", isLogin := true)
  }

  /** The reply of an auth call: an error message, or success with the
      `requireEmailVerification` (sign-up) or `success` (resend) flag; or the
      call threw. */
  datatype Reply = Refused(message: string) | Accepted(flag: bool) | Threw

  /** The state after a handler and whether it navigated home. */
  datatype Step = Step(state: Login, navigateHome: bool)

  /** The state while a submit is in flight: error cleared, loading. */
  function Busy(l: Login): Login
  {
    l.(error := "", loading := true)
  }

  /** `handleSubmit`: sign in or sign up according to the mode. A refusal
      shows its message or the mode's fallback; a sign-up that asks for
      verification enters the verification step; any other success goes
      home; loading is over on every path. */
  function HandleSubmit(l: Login, reply: Reply): (s: Step)
    ensures !s.state.loading
    ensures s.navigateHome <==> reply.Accepted? && (l.isLogin || !reply.flag)
    ensures reply.Refused? ==> s.state.error == OrElse(reply.message, if l.isLogin then SignInFallback else SignUpFallback)
    ensures reply.Threw? ==> s.state.error == UnexpectedMessage
    ensures reply.Accepted? ==> s.state.error == ""
    ensures s.state.verificationRequired <==> l.verificationRequired || (!l.isLogin && reply == Accepted(true))
    ensures s.state.error != "" <==> !reply.Accepted?
    ensures s.state == Busy(l).(error := s.state.error, loading := false,
                                verificationRequired := s.state.verificationRequired)
  {
    var b := Busy(l);
    match reply
    case Threw => Step(b.(error := UnexpectedMessage, loading := false), false)
    case Refused(m) =>
      Step(b.(error := OrElse(m, if l.isLogin then SignInFallback else SignUpFallback), loading := false), false)
    case Accepted(verify) =>
      if !l.isLogin && verify then Step(b.(verificationRequired := true, loading := false), false)
      else Step(b.(loading := false), true)
  }

  /** `handleVerifyCode`: home on success, else the message or its long
      fallback; loading is over on every path. */
  function HandleVerifyCode(l: Login, reply: Reply): (s: Step)
    ensures !s.state.loading
    ensures s.navigateHome <==> reply.Accepted?
    ensures reply.Refused? ==> s.state.error == OrElse(reply.message, VerifyFallback)
    ensures reply.Threw? ==> s.state.error == UnexpectedMessage
    ensures s.state.error != "" <==> !reply.Accepted?
    ensures s.state == Busy(l).(error := s.state.error, loading := false)
  {
    var b := Busy(l);
    match reply
    case Threw => Step(b.(error := UnexpectedMessage, loading := false), false)
    case Refused(m) => Step(b.(error := OrElse(m, VerifyFallback), loading := false), false)
    case Accepted(_) => Step(b.(loading := false), true)
  }

  /** `handleResendCode`: the error shown afterwards. A refusal shows its
      message or the fallback, a throw the fallback, a reported success
      clears the error, and a success without the flag leaves it as it was. */
  function HandleResendCode(l: Login, reply: Reply): (l': Login)
    ensures l' == l.(error := l'.error)
    ensures reply.Refused? ==> l'.error == OrElse(reply.message, ResendFallback)
    ensures reply.Threw? ==> l'.error == ResendFallback
    ensures reply == Accepted(true) ==> l'.error == ""
    ensures reply == Accepted(false) ==> l' == l
  {
    match reply
    case Threw => l.(error := ResendFallback)
    case Refused(m) => l.(error := OrElse(m, ResendFallback))
    case Accepted(sent) => if sent then l.(error := "") else l
  }

  /** Toggling twice returns to the mode started from, with error and name
      cleared. */
  lemma ToggleTwice(l: Login)
    ensures ToggleMode(ToggleMode(l)) == l.(error := "", name := "")
  {
  }
}
